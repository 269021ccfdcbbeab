# Nero — a verified model of the assistant's core

Nero is a desktop voice assistant. It has a frameless pygame window with two parts:
- on the left, a circular spectrum of 90 animated bars;
- on the right, a chat panel.

A background listen cycle turns the microphone transcript into a command. The command either runs an action (exit, play on YouTube, tell the time, open a site) or is answered by a language model. The reply is recorded in the conversation and spoken aloud.

This project models that core in Dafny, module by module:

- **Spectrum / Visualizer** (`ui/visualizer.py`). The pure arithmetic lives in `Spectrum`: the "tech" gradient palette, integer colour easing, the four per-mode target-level rules, the spring integrator, and the bar geometry. The animator itself is the class `Visualizer.CircularSpectrum`, kept over arrays as in the source:
  - `colors` *is* the idle-palette array, not a copy, and `targetColors` starts as the same array. Easing in any mode other than idle therefore rewrites the idle palette itself. While the target is the idle palette, easing changes nothing (`Update`).
  - Easing a channel upwards stalls whenever the target is less than ten above the current value (`EaseChannel`).
  - Every bar level ends every frame in [0.05, 1.3] (`Integrate`, `Update`).
- **Components** (`ui/components.py`). The title-bar hitboxes and what a click lands on. The slice of the conversation the panel is asked to show, and the rows that fit. Truncation, the speaker style, and the status pill.
  - Only 11 rows fit, while 12 entries are requested. Once the conversation holds 12 or more entries, the newest one is therefore not drawn (`App.NewestMessageDrawnIff`).
- **Brain** (`modules/brain.py`). `think` records the user line, sends the system prompt and the last six memory lines, records the answer, and otherwise falls back to a history-free prompt and then to a canned apology. The language model is an oracle `generate: string -> Option<string>`, where `None` stands for a call that raised.
- **App** (`core/app.py`, with `Voice.speak` and `Ears.listen` reduced to the visualizer modes they set):
  - the class `App.NeroAI`: its conversation and scroll position, `add_message`, `process_command`, `listen_thread`, `greet` and `toggle_chat`;
  - the main loop's event handling and listen guard.
  - The keyword priority of `process_command` is the function `Dispatch`. External calls (YouTube, browser, window manager) are returned as `Effect` values.

Reals are exact. `math.sin`/`math.cos` and every random draw are parameters. Clock readings come in as strings (timestamps, the spoken time) or as the hour. The recogniser's transcript comes in as an `Option<string>`.

## Model

| member | source | states |
|---|---|---|
| Visualizer.BuildTechGradient | ui/visualizer.py:41-76 | the nested append loops and the padding loop build exactly the gradient `TechGradient(n)` |
| Spectrum.LerpChannel | ui/visualizer.py:66-69 | an interpolated channel lies between the two key channels, and step 0 is the first key channel |
| Spectrum.Lerp | ui/visualizer.py:65-70 | an interpolated colour lies channel by channel between its two key colours; step 0 is the first key colour |
| Spectrum.TechGradient | ui/visualizer.py:41-76 | the gradient has exactly n colours: six sections of n div 6 interpolated colours, then the last key colour as padding; the builder loop and the TechGradient lemmas are proved against it |
| Spectrum.EaseAll | ui/visualizer.py:177-184 | one easing step of every bar colour towards the colour at the same index of the target, keeping the length |
| Spectrum.IdleTarget | ui/visualizer.py:105-117 | the idle target of bar i: half the focal shape factor (spread 0.35, floor 0.1), a sine breath of amplitude 0.1, and uniform noise in [0, 0.05] |
| Spectrum.ListeningTarget | ui/visualizer.py:120-122 | the listening target: 0.3 plus a sine pulse of amplitude 0.1 |
| Spectrum.Beat | ui/visualizer.py:128-132 | the shared kick: a draw in [0.3, 0.6] when the half-second phase is below 0.1, else 0 |
| Spectrum.SpeakingTarget | ui/visualizer.py:134-163 | the speaking target: `0.2 + 0.8 * (beat + wave + jitter)` times the focal shape bias (spread 0.45, floor 0.15), clamped to [0.05, 1.3] |
| Spectrum.ThinkingTarget | ui/visualizer.py:166-169 | the thinking target: 0.4 plus a three-lobed sine ripple of amplitude 0.4 |
| Spectrum.Regenerate | ui/visualizer.py:99-169 | the new targets of all 90 bars: the rule of the mode for each bar, one shared beat while speaking, and the old targets for an unknown mode |
| Spectrum.Speed | ui/visualizer.py:197-202 | spring stiffness 40 while speaking, 10 otherwise, so it lies in [10, 40] |
| Spectrum.Damping | ui/visualizer.py:197-202 | damping 0.5 while speaking, 0.85 otherwise, so each step keeps between half and 85% of the velocity |
| Spectrum.BarSegment | ui/visualizer.py:219-232 | the line of bar i: angle `(i/90)·2π − π/2 + rotation`, from radius 150 out by the bar's height, in the bar's colour and width 7 |
| Spectrum.TechGradientAt | ui/visualizer.py:59-74 | entry k is the (k mod steps)-th step of section k div steps inside the six sections, else the last key colour |
| Spectrum.TechGradientLength | ui/visualizer.py:72-74 | the gradient always has exactly n colours |
| Spectrum.TechGradientSectionStart | ui/visualizer.py:61-70 | section k starts exactly on key colour k |
| Spectrum.TechGradientBetweenKeys | ui/visualizer.py:61-70 | every interpolated entry lies between the key colours of its section |
| Spectrum.TechGradientPadding | ui/visualizer.py:72-74 | there are n mod 6 padding entries, all the last key colour |
| Spectrum.TechGradientOfNinety | ui/visualizer.py:59 | with 90 bars the gradient is six sections of 15 and has no padding |
| Spectrum.TechGradientTiny | ui/visualizer.py:59-74 | with fewer than six bars every entry is the last key colour |
| Spectrum.TechGradientOk | ui/visualizer.py:41-76 | every channel of the gradient lies in [0, 255] |
| Spectrum.EaseChannel | ui/visualizer.py:181-183 | an eased channel never passes or moves away from its target; it stays put iff it is on target or less than 10 below it |
| Spectrum.Ease | ui/visualizer.py:178-184 | an eased colour lies between current and target, and a colour on target stays |
| Spectrum.EaseAllFixed | ui/visualizer.py:177-184 | easing a palette towards itself (the aliased idle case) changes nothing |
| Spectrum.EaseAllOk | ui/visualizer.py:177-184 | easing keeps every channel in [0, 255] |
| Spectrum.LeftCenter | ui/visualizer.py:102 | the focal bar `int(n * 0.75)` is a valid bar index |
| Spectrum.CircularDistance | ui/visualizer.py:107-109 | the wrapped distance is at most half the circle and is 0 iff the bar is the focal bar |
| Spectrum.ShapeFactor | ui/visualizer.py:112 | the shape factor is at least its floor, at most 1 when the floor is, and `max(floor, 1)` on the focal bar |
| Spectrum.BeatPhase | ui/visualizer.py:131 | Python's `time % 0.5` lies in [0, 0.5) |
| Spectrum.Clamp | ui/visualizer.py:163 | the result is in [0.05, 1.3] and a value already in range is unchanged |
| Spectrum.RegenerateUnknownMode | ui/visualizer.py:104-169 | an unrecognised mode leaves all target levels as they were |
| Spectrum.IdleTargetRange | ui/visualizer.py:105-117 | idle targets lie in [-0.05, 0.65] |
| Spectrum.ListeningTargetRange | ui/visualizer.py:120-122 | listening targets lie in [0.2, 0.4] |
| Spectrum.ThinkingTargetRange | ui/visualizer.py:166-169 | thinking targets lie in [0, 0.8] |
| Spectrum.RegenerateRange | ui/visualizer.py:99-169 | each regenerated target lies in its mode's range (speaking clamped to [0.05, 1.3]); unknown modes keep the old target |
| Spectrum.Integrate | ui/visualizer.py:192-207 | after one spring step a level lies in [0.05, 1.3], whatever the inputs |
| Spectrum.IntegrateFrozen | ui/visualizer.py:204-207 | with dt = 0 a level is only clamped, while its velocity is still damped |
| Spectrum.IntegrateAtRest | ui/visualizer.py:204-207 | a bar at rest on an in-range target stays where it is |
| Spectrum.BarHeight | ui/visualizer.py:224 | for a level in [0.05, 1.3] the drawn length lies in [18, 218] |
| Spectrum.SegmentAlongRay | ui/visualizer.py:219-232 | the outer end is the bar's height further along the ray than the inner end; given cos² + sin² = 1, the inner end lies on the circle of radius 150 and the outer end on the circle of radius 150 + height |
| Visualizer.Refreshes | ui/visualizer.py:187-188 | a frame regenerates the targets iff the draw is below the refresh rate, which is 1.0 while speaking and 0.3 otherwise |
| Visualizer.SpeakingAlwaysRefreshes | ui/visualizer.py:187-189 | with refresh rate 1.0 every speaking frame regenerates the targets |
| Visualizer.CircularSpectrum.constructor | ui/visualizer.py:12-39 | levels, targets and velocities are 0; mode is "idle"; idle and speaking palettes are tech gradients; `colors` and `targetColors` are the idle palette array itself |
| Visualizer.CircularSpectrum.SetMode | ui/visualizer.py:93-97 | the mode is always recorded; the colour target switches only for the four registered modes; nothing else changes |
| Visualizer.CircularSpectrum.EaseColors | ui/visualizer.py:176-184 | every bar colour (that is, the idle palette) becomes one easing step of its old value towards its target |
| Visualizer.CircularSpectrum.GenerateAudioLevels | ui/visualizer.py:99-169 | the target levels become `Regenerate` of the mode, clock, draws and old targets |
| Visualizer.CircularSpectrum.GenerateIdle | ui/visualizer.py:104-117 | every target is the idle rule: half the shape factor plus breath and noise |
| Visualizer.CircularSpectrum.GenerateListening | ui/visualizer.py:119-122 | every target is the listening pulse |
| Visualizer.CircularSpectrum.GenerateSpeaking | ui/visualizer.py:124-163 | every target is the clamped, shaped speaking energy for the shared beat |
| Visualizer.CircularSpectrum.GenerateThinking | ui/visualizer.py:165-169 | every target is the rotating thinking ripple |
| Visualizer.CircularSpectrum.StepPhysics | ui/visualizer.py:191-207 | each bar's level and velocity become one `Integrate` step of its old values |
| Visualizer.CircularSpectrum.Update | ui/visualizer.py:171-207 | time and rotation advance; colours ease, and stay when the target is the idle palette; the other palettes are untouched; targets regenerate iff the draw is below the rate; every level ends in [0.05, 1.3] |
| Visualizer.CircularSpectrum.Segments | ui/visualizer.py:213-232 | the renderer gets one segment per bar, on the bar's ray, with the bar's current colour |
| Components.MakeHitboxes | ui/components.py:9-18 | the close, minimize and chat buttons are 30 wide, right to left from the window edge; the title rectangle fills the rest of the 35-pixel bar |
| Components.HitTest | core/app.py:175-186 | a left click is tested against close, minimize, chat and title, in that order, and lands on the first rectangle that contains it |
| Components.HitboxesPartitionTitleBar | ui/components.py:12-18 | the four rectangles are disjoint and cover exactly the title bar |
| Components.HitTestRegions | core/app.py:175-191 | a left click hits close, minimize, chat, title or nothing, each iff it lies in that button's strip of the bar |
| Components.PySlice | ui/components.py:96 | Python's `xs[start:stop]`: negative bounds count from the end, bounds past the end are cut, and a crossed pair gives the empty slice |
| Components.VisibleMessages | ui/components.py:96 | the slice holds at most `max_visible` consecutive entries starting at the offset |
| Components.RowFitsIff | ui/components.py:98-102 | in a 650-pixel window row i fits iff i < 11 |
| Components.ChatRows | ui/components.py:98-132 | the row loop draws the first `min(visible, 11)` entries, each at its row with its style, time and shortened text |
| Components.StyleOf | ui/components.py:104-114 | role 'user' is shown as "You" in the user colours, every other role as "Nero" in the Nero colours |
| Components.Truncate | ui/components.py:129-130 | texts up to 45 characters are unchanged; longer ones become their first 45 characters plus "..." |
| Components.TruncateIdempotent | ui/components.py:129-130 | shortening a shortened text changes nothing |
| Components.StatusPill | ui/components.py:139-151 | each pill is shown iff its keyword is in the status and no earlier keyword is; "Ready" otherwise |
| Components.ListeningPillShown | ui/components.py:140-142 | "Listening..." shows the listening pill |
| Components.SpeakingPillShown | ui/components.py:143-145 | "Speaking..." shows the speaking pill |
| Components.ThinkingPillShown | ui/components.py:146-148 | "Thinking..." shows the thinking pill |
| Components.ReadyPillShown | ui/components.py:149-151 | "Ready" shows the ready pill |
| Components.InitializingShowsReady | ui/components.py:149-151 | the start-up status "Initializing..." is shown as "Ready" |
| Brain.ThinkOutcome | modules/brain.py:14-47 | the reply and the memory after `think`: offline reply; or the user line, then the stripped answer recorded as a Nero line; or the unrecorded stripped fallback answer; or the apology |
| Brain.FullPrompt | modules/brain.py:24-26 | the primary prompt: the system prompt, a blank line, the last six memory lines joined by newlines, then "\nNero:" |
| Brain.ContextEndsWithPrompt | modules/brain.py:21-25 | after recording the user line, the context has at most six lines and ends with that line |
| Brain.FullPromptShape | modules/brain.py:26 | the primary prompt starts with the system prompt and a blank line, and ends with the user line and "\nNero:" |
| Brain.ThinkHistory | modules/brain.py:14-47 | offline leaves the memory alone; otherwise it grows by the user line, plus a Nero line holding the reply iff the primary call succeeded; earlier lines are kept |
| Brain.ThinkBothFail | modules/brain.py:36-47 | when both calls fail the reply is the apology quoting the prompt, and only the user line is kept |
| Brain.ThinkKeepsWellFormed | modules/brain.py:21-35 | `think` keeps every memory line tagged, with each Nero line right after a user line |
| Brain.Brain.constructor | modules/brain.py:5-12 | `ready` records whether the client could be created; the memory starts empty |
| Brain.Brain.Think | modules/brain.py:14-47 | the visualizer switches to "thinking" first, even offline; the reply and the new memory are `ThinkOutcome` |
| App.Dispatch | core/app.py:94-135 | the command for an utterance: exit on any exit word; else play the utterance without "play" and stripped when "play " occurs; else the time; else the first requested site; else ask the model |
| App.CannedReply | core/app.py:94-128 | the spoken reply of the exit, play, time and open branches |
| App.EffectOf | core/app.py:102-128 | play asks YouTube for the song, open asks the browser for the site's URL, and the other commands call nothing |
| App.FirstSite | core/app.py:119-122 | the result is the first site in table order whose name and "open" both occur, or none |
| App.FindSite | core/app.py:121-128 | the site loop returns exactly `FirstSite` |
| App.DispatchPriority | core/app.py:94-135 | each command is chosen iff its test holds and every earlier test fails: exit, "play ", time, site, then the model |
| App.DispatchOpensFirstSite | core/app.py:119-128 | an open command names the first requested site in table order |
| App.GoodbyeRedundant | core/app.py:94 | "goodbye" never changes the exit decision, because it contains "bye" |
| App.ExitOnSubstring | core/app.py:94-100 | exit words match inside other words: "quite right, open youtube" ends the session |
| App.PlayNeedsSpace | core/app.py:102 | a bare "play" is not a play command and goes to the model |
| App.PlaySongShape | core/app.py:103 | the song has no surrounding whitespace and is no longer than the utterance |
| App.YouTubeBeforeGoogle | core/app.py:119-122 | asking to open YouTube and Google together opens YouTube |
| App.Greeting | core/app.py:148-154 | morning before hour 12, afternoon before 18, evening otherwise |
| App.GreetingByHour | core/app.py:148-154 | morning before 12, afternoon from 12 to 17, evening from 18, each as an iff |
| App.GreetingChangesTwice | core/app.py:148-154 | across a day the greeting changes exactly at 12:00 and 18:00 |
| App.ScrollFor | core/app.py:86-87 | the offset `add_message` leaves: the entry count minus 12 once there are more than 12 entries, else 0 |
| App.ScrolledToBottom | core/app.py:85-87 | with the offset `add_message` keeps, the panel is asked for exactly the last 12 entries |
| App.NewestMessageDrawnIff | ui/components.py:96-102 | the newest entry is the last one requested, and it is drawn iff the conversation has at most 11 entries |
| App.OnlyReadyStartsListening | core/app.py:211 | none of the statuses "Initializing...", "Listening...", "Speaking...", "Thinking..." lets a listen cycle start |
| App.Speak | modules/voice.py:31-93 | after speaking the visualizer is in "idle" with the idle palette as target; its arrays and clock are untouched |
| App.Listen | modules/ears.py:10-27 | the visualizer ends in "idle"; the result is the stripped transcript, or none |
| App.NeroAI.constructor | core/app.py:17-63 | visualizer at (250, 342), idle, with clock and rotation 0, all levels, targets and velocities 0, idle and speaking palettes the tech gradient, listening and thinking palettes as given, and shown and target colours the idle palette; empty conversation; status "Initializing..."; running; chat visible; not listening or dragging |
| App.NeroAI.ToggleChat | core/app.py:65-71 | the panel flips, and the hitboxes are rebuilt for width 950 or 500; nothing else changes |
| App.NeroAI.AddMessage | core/app.py:77-87 | one stamped entry is appended; past 12 entries the offset shows the last 12, otherwise it stays |
| App.NeroAI.ProcessCommand | core/app.py:89-135 | user entry then one reply entry; the reply, the effect and whether the app keeps running follow `Dispatch`; only the model branch touches its memory; status ends "Speaking..."; the visualizer ends idle with its clock and rotation untouched |
| App.NeroAI.Respond | core/app.py:94-135 | the keyword chain appends one reply entry and agrees with `Dispatch`, `CannedReply`, `EffectOf` and `ThinkOutcome`; the visualizer clock and rotation are untouched |
| App.NeroAI.AskModel | core/app.py:130-135 | the reply and the model memory are `ThinkOutcome`; the reply is recorded and spoken; the visualizer clock and rotation are untouched |
| App.NeroAI.Reply | core/app.py:132-135 | status "Speaking...", the reply stored, recorded as a 'nero' entry and spoken; the visualizer ends idle with its clock and rotation untouched |
| App.NeroAI.ListenThread | core/app.py:137-144 | the command is the stripped transcript; a non-empty one is processed as a command: user and reply entries, the canned reply or `ThinkOutcome`, the model memory, the running flag and the effect all follow `Dispatch`; an empty one changes no conversation, reply, memory or running flag; the user text becomes the command when there is one and is kept otherwise; the cycle ends "Ready" and not listening, with the visualizer idle, heading for the idle palette, and its clock and rotation untouched |
| App.NeroAI.SetStatus | core/app.py:139 | only the status changes |
| App.NeroAI.HandleTranscript | core/app.py:141-142 | an empty transcript is dropped, leaving conversation, reply, user text, status, memory and running flag as they were; any other is processed as a command, with the same entries, reply, memory, running flag and effect as `ProcessCommand`, the user text set to it and the status "Speaking..."; `listening` is untouched and the visualizer stays idle, heading for the idle palette, with clock and rotation untouched |
| App.NeroAI.EndCycle | core/app.py:143-144 | the status is "Ready" and `listening` is cleared; nothing else changes |
| App.NeroAI.ListenGuard | core/app.py:211-213 | a cycle starts iff none is running and the status contains "Ready"; starting one sets `listening` |
| App.NeroAI.Greet | core/app.py:146-160 | the greeting for the hour is recorded and spoken, the status ends "Ready", and the visualizer is idle, heading for the idle palette, with clock and rotation untouched |
| App.NeroAI.HandleEvent | core/app.py:170-209 | quit, Escape or a left click on close stop the app; minimize and drag ask the window manager; chat toggles the panel; the title bar starts a drag; button release ends it |
| Text.Contains | core/app.py:94 | Python's `w in s`: some suffix of s starts with w |
| Text.Strip | core/app.py:103 | Python's `s.strip()`: s with its leading and trailing whitespace removed, never longer than s |
| Text.RemoveAll | core/app.py:103 | Python's `s.replace(w, '')`: every non-overlapping occurrence of w removed, scanning left to right, never longer than s |
| Text.Join | modules/brain.py:25 | Python's `sep.join(xs)`: the elements with sep between neighbours |
| Text.LastN | modules/brain.py:24 | `xs[-n:] if len(xs) > n else xs` for a positive n (the source uses 6): the last min(n, len(xs)) elements |
| Text.ContainsIffOccurs | core/app.py:94 | Python's `w in s` as a scan agrees with "w occurs at some position of s" |
| Text.StripSpec | modules/ears.py:22 | `strip` removes exactly a whitespace prefix and suffix, and what is left neither starts nor ends with whitespace |
| Text.RemoveAllUnchangedIff | core/app.py:103 | `replace('play', '')` changes the text iff "play" occurs in it |

## Left out

- Drawing. All pygame rendering is left out: the title bar and its hover colours, the panel chrome, the bubbles and the bar tips. Only the numbers handed to the drawing calls are modelled.
- `_create_gradient` (HSV hue sweeps via `colorsys`). The listening and thinking palettes are constructor inputs with channels in [0, 255].
- Floating point. Reals are exact. A float product that lands just below an integer, which `int()` would truncate one lower, is not modelled.
- `math.sin` and `math.cos` are parameters, bounded in [-1, 1] where a range lemma needs it.
- Threads. The greeting and listen threads run as sequential calls, so interleavings with the frame loop are not modelled.
- The frame loop (clock tick, `update`, render, flip) is not modelled as a loop. Its per-frame parts are `HandleEvent`, `ListenGuard` and `CircularSpectrum.Update`.
- External calls are returned as `Effect` values instead of being performed: `pywhatkit.playonyt`, `webbrowser.open`, and the Win32 minimize and window-move calls.
- App.NeroAI.ListenThread: the external calls are taken to return. In the source, `pywhatkit.playonyt` (core/app.py:108) runs outside any `try`, and so does the call of `process_command` from `listen_thread`. If that call raises, for example with no network, the last two lines of `listen_thread` never run: the status stays "Speaking..." and `listening` stays set, so the guard at core/app.py:211 never starts another listen cycle. The model's `status == "Ready" && !listening` holds only on this no-exception path. The same holds for `webbrowser.open`.
- App.NeroAI.HandleEvent: a drag motion yields `MoveWindow` without coordinates. The cursor-minus-offset position is computed by the window manager and is not modelled.
- `datetime.now()` is replaced by its readings, passed in as strings or as the hour: the `%H:%M` stamps, the `%I:%M %p` time and the hour.
- App.Listen: the transcript is passed in already lower-cased, because `str.lower()` is not modelled. A failure to capture audio and a failure to recognise it both yield `None`, so the intermediate "thinking" mode is not visible in the contract.
- App.Speak: the audio output (edge-tts, the mixer, the SAPI fallback) is left out. The contract states only the final "idle" mode, not the "speaking" mode held while audio plays.
- Brain.Brain.constructor: when client creation fails, the source never sets `history`. The model starts it as the empty list; it is never read in that state, because `think` returns before touching it.
- The language-model client, its model name and its API key are left out. Each call is the oracle `generate`.
- The `print` diagnostics of `modules/brain.py` are left out.
- `modules/system.py`, `main.py` and `utils/setup.py` are not part of this model. The constants of `config/settings.py` that the core uses are copied into `Config`.
