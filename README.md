# ProcrastiHater: session report and agent dispatch, in Dafny

ProcrastiHater is a desktop accountability app. A webcam client detects
procrastination events (phone use, sleeping, absence, gaze away) and sends them
as data packets to a voice agent. The agent scolds the user, subject to an
alert memory with a cooldown. This project models two sequential pieces of that
system and proves properties about them.

- `duration_format.dfy` (module `DurationFormat`): the session-duration text of
  the report, `_format_duration_hhmmss`. It turns a second count into
  zero-padded `HH:MM:SS`, with negatives and failed conversions shown as zero
  and no wrap of the hour field. An independent reader, `ParseClock`, turns the
  text back into seconds, and the round trip is proved.
  The formatter is a helper of client/ui/stats_view.py. It has its own module
  because it comes with its own reader and round-trip lemmas, and the summary
  panel imports it.
- `stats_view.dfy` (module `StatsView`): the personality-image lookup (preferred
  map, then first matching card, then `test.png`). It also holds the values
  `StatsSummaryWidget.set_summary` puts on the panel: the total, the
  `VIOLATIONS DETECTED` / `PERFECT SESSION` banner, the duration, and five fixed
  per-kind counts. These values are a pure function, `SummaryDisplay`. A class
  with a fixed array of five value labels runs the label-updating loop against
  that function.
- `agent.dfy` (module `Agent`): the agent's `on_data` callback as a class
  `AgentSession`. It holds the persona and an `AlertMemory`, which is seen only
  through the trace of `should_alert` / `add_event` / `clear` calls made on it.
  The scoldings handed to the event loop are kept as a ghost list. A pure
  transition `Step` specifies one callback, and `Run` applies a sequence of
  callbacks. The module also proves invariants over whole runs and models the
  final-transcript filter of `_read_stt_results`.

The answer of `should_alert` is an input (`verdict`) of each callback. Its
cooldown rule lives in `agent/memory.py`, which is not part of this model.

Two points about `on_data`:
- Unknown event kinds are not ignored. Like detection events, they go through
  `should_alert`, and on a positive answer `add_event` is called and a scolding
  is scheduled.
- A session start calls only `clear()`. What `clear()` resets is up to the
  memory.

## Model

| member | source | states |
|---|---|---|
| `DurationFormat.Decimal` | client/ui/stats_view.py:26 | the decimal text of a count is non-empty, all digits and has no leading zero; it has one digit below 10 and at most two below 100 |
| `DurationFormat.Pad2` | client/ui/stats_view.py:26 | `{n:02d}` has at least two digits, exactly two below 100, no leading zero from 10 on (so 100 prints as "100"), and reads back as `n` |
| `DurationFormat.TotalSeconds` | client/ui/stats_view.py:19-22 | the count is `int(seconds)` when that is non-negative, and 0 when it is negative or the conversion raised |
| `DurationFormat.FormatDuration` | client/ui/stats_view.py:18-26 | the output is at least 8 characters long, with ':' at the 3rd- and 6th-last positions |
| `DurationFormat.ClockFieldsRecompose` | client/ui/stats_view.py:23-25 | h*3600 + m*60 + s equals the total; minutes and seconds lie in [0, 59]; hours are total div 3600, with no wrap |
| `DurationFormat.ClockFieldsUnique` | client/ui/stats_view.py:23-25 | any split of the total into hours and in-range minutes and seconds is the one the formatter computes |
| `DurationFormat.FormatDurationFields` | client/ui/stats_view.py:23-26 | the text is "hh:mm:ss" whose hour, minute and second fields, read as decimals, are total/3600, (total%3600)/60 and total%60 of the clamped total; from 10 hours on the hour field has no padding zero |
| `DurationFormat.ParseFormatDuration` | client/ui/stats_view.py:18-26 | round trip: reading the text back gives `max(0, int(seconds))`, or 0 when the conversion failed |
| `DurationFormat.FormatDurationInjective` | client/ui/stats_view.py:18-26 | two inputs render to the same text only if their clamped totals are equal |
| `DurationFormat.FormatDurationClampsToZero` | client/ui/stats_view.py:19-26 | a negative or zero input, or one whose integer conversion fails, yields exactly "00:00:00" |
| `DurationFormat.FormatDurationLength` | client/ui/stats_view.py:23-26 | the text is exactly 8 characters long iff the total is under 360000 seconds; from 100 hours on it is longer |
| `StatsView.PersonalityToImageFilename` | client/ui/stats_view.py:29-44 | returns the preferred map's image when the name is a key; otherwise the icon of the first card whose title equals the name; otherwise "test.png" |
| `StatsView.SummaryDisplay` | client/ui/stats_view.py:165-204 | the panel values are an error exactly when "total_violations" does not convert; otherwise there is one detail row per event key, and the banner is "violations detected" iff the total is positive |
| `StatsView.SummaryTotal` | client/ui/stats_view.py:165-168 | `set_summary` raises exactly when "total_violations" does not convert to an integer; otherwise the total is that integer, or 0 when absent |
| `StatsView.SummaryBanner` | client/ui/stats_view.py:176-199 | the banner reads "VIOLATIONS DETECTED" iff the total is positive and "PERFECT SESSION" iff it is not |
| `StatsView.SummaryDuration` | client/ui/stats_view.py:169-173 | the duration label reads back as the clamped duration, or 0 when it is absent or does not convert |
| `StatsView.SummaryDetails` | client/ui/stats_view.py:138-144 | exactly five rows, in declaration order, each showing `counts[key]` when present and 0 when absent |
| `StatsView.SummaryIgnoresOtherKeys` | client/ui/stats_view.py:202-204 | a count under any key other than the five row keys never changes what is shown |
| `StatsView.SummaryOfNothing` | client/ui/stats_view.py:163-173 | a None summary behaves as `{}`: total 0, "00:00:00", "PERFECT SESSION", every row 0 |
| `StatsView.StatsSummaryWidget.constructor` | client/ui/stats_view.py:75-163 | a new panel shows the summary of nothing |
| `StatsView.StatsSummaryWidget.SetSummary` | client/ui/stats_view.py:165-204 | on an unconvertible total nothing changes; otherwise the labels and the five value widgets show `SummaryDisplay(summary)` |
| `StatsView.StatsSummaryWidget.ShowCounts` | client/ui/stats_view.py:201-204 | after the loop, each of the five value labels shows the count of its row, `counts.get(key, 0)` |
| `Agent.Step` | agent/main.py:167-231 | one callback only appends to the memory calls and the scheduled list, schedules at most one scolding, changes the persona only on a persona update, and changes nothing for a packet that failed to decode or parse |
| `Agent.ComposePersona` | agent/main.py:198-206 | the persona starts with the name (default "Unknown") and is exactly the name iff the description is empty |
| `Agent.ComposePersonaParts` | agent/main.py:198-206 | the persona is the name when the description is empty; otherwise it is name, "\n(Character Description: ", description and ")"; the name defaults to "Unknown" and the description to "" |
| `Agent.AlertMemory.ShouldAlert` | agent/main.py:218 | the memory answers `verdict` and records one `should_alert` call |
| `Agent.AlertMemory.AddEvent` | agent/main.py:220 | records one `add_event` call with the packet's kind and data |
| `Agent.AlertMemory.Clear` | agent/main.py:214 | records one `clear` call |
| `Agent.AgentSession.constructor` | agent/main.py:28-48 | the persona starts as "Strict Devil Instructor", with a fresh memory and nothing scheduled |
| `Agent.AgentSession.OnData` | agent/main.py:167-231 | the new persona, memory trace and scheduled list are those `Step` gives for the old state |
| `Agent.DroppedPacketChangesNothing` | agent/main.py:172-194 | when decoding or parsing fails, persona, memory and scheduled scoldings are unchanged |
| `Agent.PersonalityUpdateRoute` | agent/main.py:198-209 | a persona update sets the composed persona and makes no memory call and schedules nothing |
| `Agent.PersonalityUpdateIdempotent` | agent/main.py:198-209 | applying the same persona update twice leaves the same state as applying it once |
| `Agent.SessionStartRoute` | agent/main.py:212-215 | a session start makes exactly one `clear` call, keeps the persona and schedules nothing |
| `Agent.GatedEventRoute` | agent/main.py:217-226 | any other event, unknown kinds included, is first put to `should_alert`; `add_event` follows and one scolding is scheduled iff the answer is true; otherwise no further memory call is made |
| `Agent.StepConsistent` | agent/main.py:217-223 | one callback keeps every `add_event` right after a `should_alert` of the same kind, and keeps the scheduled list equal to the `add_event` packets |
| `Agent.RunConsistent` | agent/main.py:167-231 | any run of callbacks keeps that invariant, and the memory trace and scheduled list only grow |
| `Agent.InitialStateConsistent` | agent/main.py:48 | the starting state satisfies the invariant and has the default persona |
| `Agent.RunPersonaWithoutUpdate` | agent/main.py:197-209 | a run without persona updates leaves the persona unchanged |
| `Agent.RunPersonaLastUpdate` | agent/main.py:198-206 | after a run, the persona is the one composed from the last persona update received |
| `Agent.RunIgnoresDropped` | agent/main.py:172-194 | a run ends in the same state as the run of only the packets that decoded and parsed |
| `Agent.StepClears` | agent/main.py:212-215 | one callback adds a `clear` call exactly when it is a session start |
| `Agent.RunClears` | agent/main.py:211-215 | over a run, memory is cleared exactly once per session start received |
| `Agent.TrimStart` | agent/main.py:66 | the result is the suffix of the text left after removing its leading whitespace: everything cut is whitespace, the result does not start with whitespace, and no non-whitespace character is lost |
| `Agent.TrimEnd` | agent/main.py:66 | the result is the prefix of the text left after removing its trailing whitespace: everything cut is whitespace, the result does not end with whitespace, and no non-whitespace character is lost |
| `Agent.Strip` | agent/main.py:66 | `strip()` is no longer than the text, starts and ends with a non-whitespace character when non-empty, and keeps the number of non-whitespace characters; `StripIsSlice` gives its contents |
| `Agent.StripIsSlice` | agent/main.py:66 | `strip()` is a contiguous slice of the text with only whitespace before and after it |
| `Agent.AnswersTranscript` | agent/main.py:64-66 | an answered event is a final transcript at least two characters long |
| `Agent.TranscriptFilter` | agent/main.py:64-66 | a transcript is answered iff it is final and has at least two non-whitespace characters; the emptiness test is subsumed |

## Left out

- Floating-point seconds: the duration input is the integer Python's `int()` already made of it, or None when `int()` raised.
- String values of `VisionEvents` and `SystemEvents`: `shared/constants.py` is not part of this model. The keys are taken to equal the constant names (`PHONE_DETECTED`, `PERSONALITY_UPDATE`, ...).
- `FloatingWidget.PERSONALITY_IMAGE_MAP` and `name.personality_cards` live in files that are not part of this model. They are parameters: the map is None when its import fails, and the card list is empty when the attribute is missing.
- Summary values other than integers: counts are integers, "counts" is a dictionary (None and `{}` are the empty map), and the rendering of the total and counts with `str` is not modelled.
- Qt styling, painting, pixmap loading and the filesystem check for the image file (client/ui/stats_view.py:47-64, 241-260).
- `AgentMemory` internals (cooldown timing, history, summary text) and `Packet.from_json`: their source is not part of this model. `should_alert`'s answer is an input of each callback, and UTF-8 decoding and JSON parsing are reduced to their outcome (`DecodeFailed`, `ParseFailed`, `Received`).
- Packet data values other than strings. A non-string "personality" value, stored as is when the description is empty, is not modelled.
- Exceptions raised inside the memory or by `asyncio.create_task` after `should_alert` (caught and logged at agent/main.py:228-231). The memory and scheduling are modelled as never raising.
- `scold_user` and `handle_user_speech`: the LLM, TTS and STT streaming, the lazy audio-source creation and `asyncio.create_task` itself. A scheduled scolding is only an entry in a ghost list.
- The LiveKit client, the webcam debug window, the Gemini feedback call, the client's Qt wiring and the model download script: network, threads, I/O and UI.
