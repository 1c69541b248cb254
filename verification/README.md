# PiPanel core in Dafny

PiPanel is a small touch-screen "now playing" panel for a Raspberry Pi. It has two halves:

- **The panel** (`ui_panel.cpp`). A C++/SDL program:
  - polls the backend for the current track and for telemetry;
  - pulls fields out of the JSON replies with a hand-written substring scanner;
  - reads a rotary encoder and four buttons on the GPIO lines, and posts media commands;
  - draws at a fixed frame rate.
- **The backend** (`pi_core.py`). A Flask service that:
  - projects the player's playback record onto a flat reply (`/spotify_now`);
  - forwards playback commands to the player (`/spotify_cmd`).

This project models the logic of both halves and proves properties of it:

| module | file | models |
|---|---|---|
| `CppString` | `cpp_string.dfy` | What the scanner relies on from `std::string`: `find`, `find_first_of`, `substr`, `npos`, and `size_t` wrap-around. The width is taken as 64 bits; results for blobs shorter than `npos` are the same at 32 bits. |
| `FieldScan` | `field_scan.dfy` | The `get_val` scanner of the playback poller, the `find` scanner of the telemetry fetch, and the `"true"` test for the playing flag. |
| `ScanScenarios` | `scan_scenarios.dfy` | The telemetry scanner applied to a concrete reply. |
| `PanelState` | `panel_state.dfy` | The panel's shared playback record (a class), and one poll cycle that assigns its fields in order. |
| `GpioInput` | `gpio_input.dfy` | One pass of the input thread as a class that records posted commands and the screen toggle; the thread's first `n` passes; what those passes send. |
| `FramePacing` | `frame_pacing.dfy` | The frame delay computed from the unsigned 32-bit millisecond counter. |
| `NowPlaying` | `now_playing.dfy` | The `/spotify_now` route, including the exceptions it can raise. |
| `CommandDispatch` | `command_dispatch.dfy` | The `/spotify_cmd` route, with the player's answers as parameters. |

Behaviour of the code that the model keeps as written:

- **`get_val` with no `:` after the key.** The position `npos + 1` wraps to 0, so the scan restarts at the start of the blob. It cannot fault there, because the key's own opening quote is a value-start character.
- **`get_val` with no value-start character after the colon.** It indexes `data[npos]`, which is undefined behaviour. The model returns `Failure(OutOfRangeRead)`.
- **A value with no closing quote or comma.** The value runs to the end of the blob.
- **Telemetry `find` with the key present but no `:` after it.** It returns the whole blob, via `substr(0, npos)`.
- **Telemetry values are not unquoted.** For the reply `{"cpu":42,"gpu":"n/a"}`, gpu reads as `"n/a"}`, quotes and brace included: the scanner does not strip quotes or braces.
- **Buttons are level-triggered, with no debounce.** A button held low sends its command on every 150 ms pass, and the mode line flips the screen on every pass. The loop has no edge detection and no debounce.
- **An empty reply (server unreachable).**
  - Title and artist become empty, and playing becomes false.
  - `std::stof("")` then throws while assigning progress. Nothing catches it, so the panel process ends.
  - The model reports this as `Aborted(NotANumber)` after three assignments.
- **The panel's commands do not reach the backend's route.**
  - The panel posts to `/media`, while the backend serves `/spotify_cmd`.
  - `http_post` sets no Content-Type, so its body goes out form-encoded, and Flask never reads it as JSON.
  - Even as a JSON object `{"cmd": name}` sent to the right route, `vol_up` and `vol_down` are accepted and do nothing (`CommandDispatch.PanelCommands`).

## Model

| member | source | states |
|---|---|---|
| CppString.AddSize | ui_panel.cpp:82 | `pos + 1` in `size_t`: the plain sum when it fits, 0 when `pos` is `npos` |
| CppString.SubSize | ui_panel.cpp:85 | `end - start - 1` in `size_t`: the plain difference when non-negative, otherwise wrapped modulo 2^64 |
| CppString.Find | ui_panel.cpp:79 | `std::string::find`: the first position at or after `pos` where the pattern occurs, or `npos` when there is none |
| CppString.FindFirstOf | ui_panel.cpp:82 | `find_first_of`: the first position at or after `pos` holding one of the characters, or `npos` |
| CppString.Substr | ui_panel.cpp:85 | `substr(pos, count)`: exactly the characters from `pos`, clamped to the end of the string |
| FieldScan.GetVal | ui_panel.cpp:78-89 | whatever `get_val` returns is a contiguous slice of the fetched blob |
| FieldScan.GetValKeyAbsent | ui_panel.cpp:79-80 | a key whose quoted form does not occur reads as the empty string |
| FieldScan.GetValLocates | ui_panel.cpp:79-81 | the scan starts from the first `:` after the first occurrence of the quoted key |
| FieldScan.ValueAfterColonClassifies | ui_panel.cpp:82-88 | the first value-start character after the colon decides the branch: a quote selects the quoted reading, anything else the scalar reading |
| FieldScan.GetValQuoted | ui_panel.cpp:83-85 | a quoted value is the text strictly between its opening quote and the next quote, or up to the end of the blob when there is no closing quote |
| FieldScan.GetValScalar | ui_panel.cpp:87-88 | a scalar value runs from its first value character up to the next comma, or to the end of the blob |
| FieldScan.GetValNoColon | ui_panel.cpp:81-88 | with no colon after the key, the scan wraps to position 0 and finds a value-start character `st` no later than the key, so it never faults; the value is the quoted or scalar reading from `st` |
| FieldScan.GetValFaultIff | ui_panel.cpp:81-83 | `get_val` reads out of range exactly when the key and a colon after it occur but no value-start character follows that colon |
| FieldScan.PlayingFlag | ui_panel.cpp:93 | playing is set exactly when the text read for `is_playing` contains `true` somewhere |
| FieldScan.StatField | ui_panel.cpp:103-109 | the telemetry scanner returns `n/a` or a contiguous slice of the blob |
| FieldScan.StatFieldKeyAbsent | ui_panel.cpp:104-105 | a missing telemetry key reads as `n/a` |
| FieldScan.StatFieldPresent | ui_panel.cpp:106-108 | a present key reads as the raw text between its colon and the next comma (or the end of the blob), quotes and braces kept |
| FieldScan.StatFieldNoColon | ui_panel.cpp:106-108 | a present key with no colon after it reads as the whole blob |
| FieldScan.FetchStatsKeyAbsent | ui_panel.cpp:103-111 | an output (cpu, gpu, temp_cpu or temp_gpu) whose key is missing from the blob shows `n/a` |
| FieldScan.FetchStatsPresent | ui_panel.cpp:103-111 | an output whose key is present shows the raw text between the first colon after the key and the next comma (or the end of the blob) |
| ScanScenarios.SampleTelemetry | ui_panel.cpp:101-111 | for `{"cpu":42,"gpu":"n/a"}`: cpu is `42`, gpu is `"n/a"}`, and both temperatures are `n/a` |
| PanelState.AssignmentsRun | ui_panel.cpp:91-96 | at most six assignments run; the first runs exactly when `title` scans without a fault; all six imply `art_url` scanned |
| PanelState.EmptyResponse | ui_panel.cpp:91-94 | an empty reply reads every key as empty and playing as false, and the cycle stops at the progress conversion |
| PanelState.SpotifyState.constructor | ui_panel.cpp:21-28 | the initial record: placeholder title and artist, no artwork, paused, progress 0, duration 1 |
| PanelState.SpotifyState.Refresh | ui_panel.cpp:91-96 | each field is written in source order up to the first fault and keeps its old value after it; the outcome tells a completed cycle from an out-of-range read and from a rejected number |
| GpioInput.EncoderStep | ui_panel.cpp:203-207 | a change on phase A sends exactly one volume command, up when the phases differ and down when they agree; no change sends none |
| GpioInput.ButtonsLevelTriggered | ui_panel.cpp:208-210 | every button read low sends its command once in the pass; commands go out in the order volume, prev, play/pause, next |
| GpioInput.ModeLineSendsNothing | ui_panel.cpp:211 | the mode line never sends a command, and it flips the screen exactly when read low |
| GpioInput.ButtonPostsPerLowPass | ui_panel.cpp:208-210 | over any run of passes, each of prev, play/pause and next is posted exactly as many times as its line was read low |
| GpioInput.HeldButtonRepeats | ui_panel.cpp:208-210 | any of the three buttons held low for n passes sends its command n times |
| GpioInput.VolumeFollowsEdges | ui_panel.cpp:201-207 | over any run of passes, the number of volume commands equals the number of passes where phase A changed |
| GpioInput.ModeParity | ui_panel.cpp:211 | over any run of passes, the screen flag ends flipped exactly when the mode line was read low an odd number of times |
| GpioInput.InputPoller.constructor | ui_panel.cpp:197 | the poller starts with phase A at 0, the track screen shown and nothing sent |
| GpioInput.InputPoller.Cycle | ui_panel.cpp:200-211 | one pass appends that pass's commands to what was sent, records phase A, and applies the mode toggle |
| GpioInput.InputPoller.Run | ui_panel.cpp:199-213 | n passes append the concatenation of the passes' commands, leave the screen flag as the passes' toggles dictate, and keep phase A from the last pass |
| FramePacing.FrameDelay | ui_panel.cpp:250 | the requested delay never exceeds the 33 ms period |
| FramePacing.FrameFillsPeriod | ui_panel.cpp:249-250 | a short frame plus its delay lasts exactly one period; a frame of the period or longer gets no delay |
| FramePacing.FrameTimeAcrossWrap | ui_panel.cpp:249 | the unsigned frame-time subtraction gives the true elapsed time even when the counter wraps |
| FramePacing.DelayAfterElapsed | ui_panel.cpp:249-250 | from two tick readings, the delay is the rest of the 33 ms period after the truly elapsed time, across a counter wrap too, or nothing once a period has passed |
| NowPlaying.ArtistNames | pi_core.py:29 | the names list succeeds exactly when every artist has a name, keeps them in order, and otherwise raises `KeyError('name')` |
| NowPlaying.SpotifyNow | pi_core.py:24-34 | an exception from `current_playback()` escapes the route with its text; a reply built without an exception never has a zero duration |
| NowPlaying.NowWithoutItem | pi_core.py:25-34 | no playback, or no item in it, gives placeholders for title and artist, duration 1 and no artwork |
| NowPlaying.NowFields | pi_core.py:28-33 | title, playing flag, progress, duration and art URL each take the player's value when present (duration only when non-zero), and their defaults otherwise; the artist is the placeholder for an empty item, and otherwise the artists' names joined with ", " (empty when the item lists no artists) |
| NowPlaying.NowFailsIff | pi_core.py:29-33 | the route raises exactly when a non-empty item has an artist without a name (KeyError, which takes precedence) or an album whose image list is empty (IndexError) |
| NowPlaying.JoinSplitRoundTrip | pi_core.py:29 | joining a non-empty list of comma-free names with ", " can be undone: splitting gives the names back in order |
| NowPlaying.ArtistRoundTrip | pi_core.py:29 | when an item has a non-empty list of artists whose names are all present and comma-free, the reply's artist text splits back into those names |
| CommandDispatch.MissingCommandIsNoop | pi_core.py:38-52 | when `request.json` yields `None`, or an object without a `cmd` entry, nothing is called and the reply is ok |
| CommandDispatch.SpotifyCmd | pi_core.py:37-52 | unknown commands call nothing and reply ok; `next` and `prev` make one call each; `playpause` queries the playback and then, if that succeeds, pauses or starts |
| CommandDispatch.FailsIff | pi_core.py:39-52 | the reply is an error exactly when a player call raised, and it carries that exception's text |
| CommandDispatch.PlayPauseToggles | pi_core.py:40-45 | a successful play/pause leaves the player in the opposite of the playing state it reported |
| CommandDispatch.PanelCommands | pi_core.py:40-49 | of the panel's command names, sent as the JSON object `{"cmd": name}`, prev, play/pause and next reach the player, while vol_up and vol_down are accepted and ignored |

## Left out

- HTTP transport is not modelled. That covers libcurl in `http_get` and `http_post`, and Flask's request routing and `jsonify` encoding. The blobs the panel scans and the bodies it posts are plain strings.
- The player service and its OAuth setup are not modelled. What `current_playback()` returns or raises, and whether a playback-control call raises, are parameters.
- Threads, the mutex, and the 2 s and 150 ms sleeps are not modelled. Each poll cycle and each input pass is one call. How passes interleave with other threads is not captured.
- SDL rendering, fonts, textures and the progress-bar drawing are not modelled. Neither is pigpio initialisation or the event loop's quit handling.
- Floating point is not modelled. `std::stof` is a parameter that yields no number where it would throw, and the fields hold reals rather than 32-bit floats.
- JSON `null` is not distinguished from an absent key in the backend model. Both are `None`.
- Values in the posted command body are modelled as strings. A non-string `cmd` compares unequal to every command, as in the source. A non-object JSON body, which makes `.get` raise outside the `try`, is not modelled.
- `get_val`'s read of `data[npos]` is undefined behaviour in C++. It is modelled as a fault that ends the poll cycle, not as whatever the hardware would do.
- CommandDispatch.MissingCommandIsNoop: `body` is what `request.json` yields, and `None` stands for its answer to a request that is not JSON. That holds for Werkzeug before 2.1. Later versions reject such a request with an error at pi_core.py:38, before the `try`, and that rejection is not modelled. The panel's form-encoded posts are never read as JSON, so under either version its commands do not reach the player.
- No end-to-end proof over a full playback reply is included. The telemetry scanner has a concrete-reply proof, and the playback scanner is covered by the general lemmas only.
- NowPlaying.SpotifyNow: its own contract states only the escaping player exception and the non-zero duration. The values of all six fields are stated by `NowFields` and `NowWithoutItem`, and the errors raised while building the reply by `NowFailsIff`.
