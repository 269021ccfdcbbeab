/**
 * The application object of core/app.py: the conversation list and its scroll position,
 * the command dispatcher, the greeting, the listen cycle, the chat toggle and the event
 * handler of the main loop. Speech output (modules/voice.py) and speech input
 * (modules/ears.py) appear only through the visualizer modes they set; the clock, the
 * recogniser and the language model are parameters; browser, YouTube and window-manager
 * calls are returned as `Effect` values instead of being performed.
 */
module App {
  import opened Prelude
  import opened Config
  import opened Text
  import opened Spectrum
  import opened Visualizer
  import opened Components
  import Brain

  /** The chat panel shows at most this many entries. */
  const MaxVisibleMessages: nat := 12

  /** `scroll_offset` as `add_message` keeps it: the list scrolled to its last 12 entries. */
  function ScrollFor(n: nat): nat
  {
    if n > MaxVisibleMessages then n - MaxVisibleMessages else 0
  }

  /** The window is 950 wide with the chat panel and 500 (the visualizer alone) without. */
  function WindowWidth(chatVisible: bool): int
  {
    if chatVisible then Width else VisualizerWidth
  }

  // ---------------------------------------------------------------- dispatch

  const ExitWords: seq<string> := ["goodbye", "bye", "exit", "quit"]
  const TimePhrases: seq<string> := ["what time", "time is it"]

  datatype Site = Site(name: string, url: string)

  /** The site table, in the order the loop visits it. */
  const Sites: seq<Site> := [
    Site("youtube", "https://youtube.com"),
    Site("google", "https://google.com"),
    Site("github", "https://github.com"),
    Site("facebook", "https://facebook.com")
  ]

  /** Site `j` is asked for: its name and the word "open" both occur in the text. */
  predicate SiteRequested(text: string, j: int)
    requires 0 <= j < |Sites|
  {
    Contains(text, Sites[j].name) && Contains(text, "open")
  }

  /** The first requested site at position `k` or later, in table order. */
  function FirstSite(text: string, k: nat): (r: Option<nat>)
    requires k <= |Sites|
    ensures r.Some? ==> k <= r.value < |Sites| && SiteRequested(text, r.value)
    ensures r.Some? ==> forall j :: k <= j < r.value ==> !SiteRequested(text, j)
    ensures r.None? ==> forall j :: k <= j < |Sites| ==> !SiteRequested(text, j)
    decreases |Sites| - k
  {
    if k == |Sites| then None
    else if SiteRequested(text, k) then Some(k)
    else FirstSite(text, k + 1)
  }

  /** The site loop of `process_command`: the first entry whose name and "open" are in the text. */
  method FindSite(text: string) returns (found: Option<nat>)
    ensures found == FirstSite(text, 0)
  {
    for k := 0 to |Sites|
      invariant FirstSite(text, 0) == FirstSite(text, k)
    {
      var site := Sites[k];
      if Contains(text, site.name) && Contains(text, "open") {
        return Some(k);
      }
    }
    return None;
  }

  /** What `process_command` decides to do with an utterance. */
  datatype Command = Exit | Play(song: string) | TellTime | OpenSite(site: Site) | AskBrain

  /**
   * The priority chain of `process_command`: exit words, then "play " (with a space), then
   * the time phrases, then the first requested site, and otherwise the language model.
   * Every test is a plain substring test.
   */
  function Dispatch(text: string): Command
  {
    if ContainsAny(text, ExitWords) then Exit
    else if Contains(text, "play ") then Play(Strip(RemoveAll(text, "play")))
    else if ContainsAny(text, TimePhrases) then TellTime
    else
      match FirstSite(text, 0)
      case Some(j) => OpenSite(Sites[j])
      case None => AskBrain
  }

  /**
   * Each command is chosen exactly when its test holds and every earlier test fails; an
   * open command names the first requested site in table order.
   */
  lemma DispatchPriority(text: string)
    ensures var c := Dispatch(text);
            && (c.Exit? <==> ContainsAny(text, ExitWords))
            && (c.Play? <==> !ContainsAny(text, ExitWords) && Contains(text, "play "))
            && (c.TellTime? <==>
                  !ContainsAny(text, ExitWords) && !Contains(text, "play ") && ContainsAny(text, TimePhrases))
            && (c.OpenSite? <==>
                  !ContainsAny(text, ExitWords) && !Contains(text, "play ") && !ContainsAny(text, TimePhrases)
                  && exists j :: 0 <= j < |Sites| && SiteRequested(text, j))
            && (c.AskBrain? <==>
                  !ContainsAny(text, ExitWords) && !Contains(text, "play ") && !ContainsAny(text, TimePhrases)
                  && forall j :: 0 <= j < |Sites| ==> !SiteRequested(text, j))
  {
    var first := FirstSite(text, 0);
    if first.Some? {
      assert SiteRequested(text, first.value);
    }
  }

  /** An open command opens the first site in table order whose name occurs next to "open". */
  lemma DispatchOpensFirstSite(text: string)
    requires Dispatch(text).OpenSite?
    ensures exists j :: 0 <= j < |Sites| && Dispatch(text).site == Sites[j] && SiteRequested(text, j)
                        && forall i :: 0 <= i < j ==> !SiteRequested(text, i)
  {
    var j := FirstSite(text, 0).value;
    assert Dispatch(text).site == Sites[j];
  }

  /** The spoken reply of every branch but the language-model one; `clock` is `%I:%M %p` of now. */
  function CannedReply(c: Command, clock: string): string
    requires !c.AskBrain?
  {
    match c
    case Exit => "Goodbye, Sir. It was my pleasure."
    case Play(song) => "Playing " + song + " for you, Sir."
    case TellTime => "The time is " + clock + ", Sir."
    case OpenSite(site) => "Opening " + site.name + " for you, Sir."
  }

  /** A call into the operating system or a browser that the application makes. */
  datatype Effect =
    | NoEffect
    | PlayOnYouTube(song: string)
    | OpenBrowser(url: string)
    | MinimizeWindow
    | MoveWindow

  /** The external call a command triggers after its reply is spoken. */
  function EffectOf(c: Command): Effect
  {
    match c
    case Play(song) => PlayOnYouTube(song)
    case OpenSite(site) => OpenBrowser(site.url)
    case _ => NoEffect
  }

  /** "goodbye" contains "bye", so it never changes whether an utterance ends the session. */
  lemma GoodbyeRedundant(text: string)
    ensures ContainsAny(text, ExitWords) <==>
              Contains(text, "bye") || Contains(text, "exit") || Contains(text, "quit")
  {
    if Contains(text, "goodbye") {
      OccursContains("goodbye", "bye", 4);
      ContainsTransitive(text, "goodbye", "bye");
    }
    if Contains(text, "bye") {
      assert Contains(text, ExitWords[1]);
    }
    if Contains(text, "exit") {
      assert Contains(text, ExitWords[2]);
    }
    if Contains(text, "quit") {
      assert Contains(text, ExitWords[3]);
    }
  }

  /**
   * Exit words are matched anywhere, even inside other words, and win over every other
   * keyword: "quite right, open youtube" ends the session.
   */
  lemma ExitOnSubstring(text: string)
    requires text == "quite right, open youtube"
    ensures Dispatch(text) == Exit
  {
    OccursContains(text, "quit", 0);
    assert Contains(text, ExitWords[3]);
  }

  /** A bare "play" without the trailing space is not a play command; it goes to the model. */
  lemma PlayNeedsSpace(text: string)
    requires text == "play"
    ensures Dispatch(text) == AskBrain
  {
    MissingCharNotContained(text, "goodbye", 'o');
    MissingCharNotContained(text, "bye", 'b');
    MissingCharNotContained(text, "exit", 'e');
    MissingCharNotContained(text, "quit", 'q');
    MissingCharNotContained(text, "play ", ' ');
    MissingCharNotContained(text, "what time", 'w');
    MissingCharNotContained(text, "time is it", 't');
    MissingCharNotContained(text, "open", 'o');
  }

  /** The song of a play command carries no surrounding whitespace and is no longer than the text. */
  lemma PlaySongShape(text: string)
    requires Dispatch(text).Play?
    ensures var song := Dispatch(text).song;
            |song| <= |text| && (song == [] || (!IsSpace(song[0]) && !IsSpace(song[|song| - 1])))
  {
    var removed := RemoveAll(text, "play");
    var song := Strip(removed);
    assert Dispatch(text) == Play(song);
    StripSpec(removed);
  }

  /** Sites are tried in table order: asking to open YouTube and Google together opens YouTube. */
  lemma YouTubeBeforeGoogle(text: string)
    requires !ContainsAny(text, ExitWords) && !Contains(text, "play ") && !ContainsAny(text, TimePhrases)
    requires Contains(text, "open") && Contains(text, "youtube") && Contains(text, "google")
    ensures Dispatch(text) == OpenSite(Site("youtube", "https://youtube.com"))
  {
    assert SiteRequested(text, 0);
  }

  // ---------------------------------------------------------------- greeting

  /** The greeting for an hour of the day. */
  function Greeting(hour: int): string
  {
    if hour < 12 then "Good morning, Sir"
    else if hour < 18 then "Good afternoon, Sir"
    else "Good evening, Sir"
  }

  function GreetingMessage(hour: int): string
  {
    Greeting(hour) + ". Nero online and ready to assist."
  }

  /** Morning before noon, afternoon from 12 to 17, evening from 18. */
  lemma GreetingByHour(hour: int)
    ensures Greeting(hour) == "Good morning, Sir" <==> hour < 12
    ensures Greeting(hour) == "Good afternoon, Sir" <==> 12 <= hour < 18
    ensures Greeting(hour) == "Good evening, Sir" <==> 18 <= hour
  {
  }

  /** Across a day the greeting changes exactly twice: at 12:00 and at 18:00. */
  lemma GreetingChangesTwice(hour: int)
    requires 0 <= hour < 23
    ensures Greeting(hour) != Greeting(hour + 1) <==> hour + 1 == 12 || hour + 1 == 18
  {
    GreetingByHour(hour);
    GreetingByHour(hour + 1);
  }

  // ---------------------------------------------------------------- the chat panel's view

  /**
   * With the scroll position `add_message` maintains, the panel is asked to show exactly the
   * last 12 entries.
   */
  lemma ScrolledToBottom(conversation: seq<Message>)
    ensures VisibleMessages(conversation, ScrollFor(|conversation|), MaxVisibleMessages)
            == LastN(conversation, MaxVisibleMessages)
  {
  }

  /**
   * The newest entry is the last one the panel is asked to show, but only 11 rows fit: it is
   * drawn exactly when the conversation has at most 11 entries.
   */
  lemma NewestMessageDrawnIff(conversation: seq<Message>)
    requires |conversation| > 0
    ensures var visible := VisibleMessages(conversation, ScrollFor(|conversation|), MaxVisibleMessages);
            && |visible| > 0 && visible[|visible| - 1] == conversation[|conversation| - 1]
            && (|visible| - 1 < Min(|visible|, MaxRows) <==> |conversation| <= MaxRows)
  {
    ScrolledToBottom(conversation);
  }

  /** Only "Ready" lets the main loop start listening: every other status the app sets blocks it. */
  lemma OnlyReadyStartsListening(status: string)
    requires status in {"Initializing...", "Listening...", "Speaking...", "Thinking..."}
    ensures !Contains(status, "Ready")
  {
    MissingCharNotContained(status, "Ready", 'R');
  }

  // ---------------------------------------------------------------- speech I/O

  /** `Voice.speak`: "speaking" while the text is spoken, "idle" afterwards, whatever happened. */
  method Speak(text: string, visualizer: CircularSpectrum)
    requires visualizer.Valid()
    modifies visualizer
    ensures visualizer.Valid() && unchanged(visualizer.Repr)
    ensures visualizer.mode == "idle" && visualizer.targetColors == visualizer.idlePalette
    ensures visualizer.time == old(visualizer.time) && visualizer.rotation == old(visualizer.rotation)
  {
    visualizer.SetMode("speaking");
    visualizer.SetMode("idle");
  }

  /**
   * `Ears.listen`: "listening" while the microphone is open, "thinking" once audio was caught,
   * "idle" at the end. `heard` is the lower-cased transcript, or `None` when nothing was
   * recognised; the result is that transcript stripped.
   */
  method Listen(visualizer: CircularSpectrum, heard: Option<string>) returns (text: Option<string>)
    requires visualizer.Valid()
    modifies visualizer
    ensures visualizer.Valid() && unchanged(visualizer.Repr)
    ensures visualizer.mode == "idle" && visualizer.targetColors == visualizer.idlePalette
    ensures visualizer.time == old(visualizer.time) && visualizer.rotation == old(visualizer.rotation)
    ensures text == if heard.Some? then Some(Strip(heard.value)) else None
  {
    visualizer.SetMode("listening");
    if heard.Some? {
      visualizer.SetMode("thinking");
      text := Some(Strip(heard.value));
    } else {
      text := None;
    }
    visualizer.SetMode("idle");
  }

  /** The command a listen cycle yields: the stripped transcript, or "" when nothing was heard. */
  function Transcript(heard: Option<string>): string
  {
    if heard.Some? then Strip(heard.value) else ""
  }

  // ---------------------------------------------------------------- events

  /** The pygame events the main loop reacts to. */
  datatype Event =
    | Quit
    | MouseDown(button: int, x: int, y: int)
    | MouseUp(button: int)
    | MouseMotion
    | KeyDown(isEscape: bool)

  // ---------------------------------------------------------------- the application

  class NeroAI {
    const visualizer: CircularSpectrum
    const brain: Brain.Brain
    var conversation: seq<Message>
    var scrollOffset: int
    var running: bool
    var status: string
    var message: string
    var userText: string
    var listening: bool
    var chatVisible: bool
    /** The title-bar hitboxes for the current window width. */
    var ui: Hitboxes
    var dragging: bool
    var dragOffset: (int, int)

    /**
     * The scroll position is the one that shows the last 12 entries, and the hitboxes
     * match the window width.
     */
    ghost predicate Valid()
      reads this, visualizer, visualizer.Repr
    {
      && visualizer.Valid()
      && scrollOffset == ScrollFor(|conversation|)
      && ui == MakeHitboxes(WindowWidth(chatVisible))
    }

    /**
     * `__init__`: the visualizer centred in the left panel, an empty conversation, status
     * "Initializing...", chat visible. The hue palettes and whether the model client could be
     * created are given.
     */
    constructor (listeningColors: seq<Color>, thinkingColors: seq<Color>, clientOk: bool)
      requires |listeningColors| == NumBars && |thinkingColors| == NumBars
      requires PaletteOk(listeningColors) && PaletteOk(thinkingColors)
      ensures Valid() && fresh(visualizer) && fresh(visualizer.Repr) && fresh(brain)
      ensures visualizer.cx == 250 && visualizer.cy == 342 && visualizer.mode == "idle"
      ensures visualizer.time == 0.0 && visualizer.rotation == 0.0
      ensures forall i :: 0 <= i < NumBars ==>
                visualizer.levels[i] == 0.0 && visualizer.targetLevels[i] == 0.0 && visualizer.velocities[i] == 0.0
      ensures visualizer.idlePalette[..] == TechGradient(NumBars)
      ensures visualizer.speakingPalette[..] == TechGradient(NumBars)
      ensures visualizer.listeningPalette[..] == listeningColors
      ensures visualizer.thinkingPalette[..] == thinkingColors
      ensures visualizer.colors == visualizer.idlePalette && visualizer.targetColors == visualizer.colors
      ensures brain.ready == clientOk && brain.history == []
      ensures conversation == [] && scrollOffset == 0
      ensures running && status == "Initializing..." && message == "" && userText == ""
      ensures !listening && chatVisible && !dragging && dragOffset == (0, 0)
    {
      var centerX := VisualizerWidth / 2;
      var centerY := TitleBarHeight + (Height - TitleBarHeight) / 2;
      visualizer := new CircularSpectrum(centerX, centerY, listeningColors, thinkingColors);
      brain := new Brain.Brain(clientOk);
      ui := MakeHitboxes(Width);
      conversation := [];
      scrollOffset := 0;
      running := true;
      status := "Initializing...";
      message := "";
      userText := "";
      listening := false;
      chatVisible := true;
      dragging := false;
      dragOffset := (0, 0);
    }

    /** `toggle_chat`: flips the panel and rebuilds the hitboxes for the new width. */
    method ToggleChat()
      requires Valid()
      modifies this
      ensures Valid()
      ensures chatVisible == !old(chatVisible)
      ensures ui == MakeHitboxes(if chatVisible then 950 else 500)
      ensures conversation == old(conversation) && scrollOffset == old(scrollOffset)
      ensures running == old(running) && status == old(status) && message == old(message)
      ensures userText == old(userText) && listening == old(listening)
      ensures dragging == old(dragging) && dragOffset == old(dragOffset)
    {
      chatVisible := !chatVisible;
      var newWidth := if chatVisible then Width else VisualizerWidth;
      ui := MakeHitboxes(newWidth);
    }

    /**
     * `add_message`: appends one entry stamped `stamp` (the `%H:%M` of now) and scrolls to
     * the last 12 entries once there are more than 12.
     */
    method AddMessage(role: string, text: string, stamp: string)
      requires Valid()
      modifies this
      ensures Valid()
      ensures conversation == old(conversation) + [Message(role, text, stamp)]
      ensures |conversation| > MaxVisibleMessages ==> scrollOffset == |conversation| - MaxVisibleMessages
      ensures |conversation| <= MaxVisibleMessages ==> scrollOffset == old(scrollOffset)
      ensures running == old(running) && status == old(status) && message == old(message)
      ensures userText == old(userText) && listening == old(listening)
      ensures chatVisible == old(chatVisible) && ui == old(ui)
      ensures dragging == old(dragging) && dragOffset == old(dragOffset)
    {
      conversation := conversation + [Message(role, text, stamp)];
      if |conversation| > MaxVisibleMessages {
        scrollOffset := |conversation| - MaxVisibleMessages;
      }
    }

    /**
     * `process_command`: records the user entry, then exactly one reply entry, and ends
     * with status "Speaking..." and the visualizer back at "idle". Which reply and which
     * external call follow from `Dispatch`; only an exit command stops the application,
     * and only the language-model branch touches the model's memory.
     */
    method ProcessCommand(text: string, userStamp: string, replyStamp: string, clock: string,
                          generate: string -> Option<string>)
      returns (effect: Effect)
      requires Valid()
      modifies this, visualizer, brain
      ensures Valid() && unchanged(visualizer.Repr)
      ensures conversation == old(conversation)
                              + [Message("user", text, userStamp), Message("nero", message, replyStamp)]
      ensures !Dispatch(text).AskBrain? ==>
                message == CannedReply(Dispatch(text), clock) && brain.history == old(brain.history)
      ensures Dispatch(text).AskBrain? ==>
                Brain.Turn(message, brain.history)
                == Brain.ThinkOutcome(brain.ready, old(brain.history), text, generate)
      ensures running == (old(running) && !Dispatch(text).Exit?)
      ensures effect == EffectOf(Dispatch(text))
      ensures userText == text && status == "Speaking..."
      ensures visualizer.mode == "idle" && visualizer.targetColors == visualizer.idlePalette
      ensures listening == old(listening) && chatVisible == old(chatVisible) && ui == old(ui)
      ensures dragging == old(dragging) && dragOffset == old(dragOffset)
      ensures visualizer.time == old(visualizer.time) && visualizer.rotation == old(visualizer.rotation)
    {
      userText := text;
      AddMessage("user", text, userStamp);
      effect := Respond(text, replyStamp, clock, generate);
    }

    /** The keyword chain of `process_command`, after the user entry is recorded. */
    method Respond(text: string, replyStamp: string, clock: string, generate: string -> Option<string>)
      returns (effect: Effect)
      requires Valid()
      modifies this, visualizer, brain
      ensures Valid() && unchanged(visualizer.Repr)
      ensures conversation == old(conversation) + [Message("nero", message, replyStamp)]
      ensures !Dispatch(text).AskBrain? ==>
                message == CannedReply(Dispatch(text), clock) && brain.history == old(brain.history)
      ensures Dispatch(text).AskBrain? ==>
                Brain.Turn(message, brain.history)
                == Brain.ThinkOutcome(brain.ready, old(brain.history), text, generate)
      ensures running == (old(running) && !Dispatch(text).Exit?)
      ensures effect == EffectOf(Dispatch(text))
      ensures userText == old(userText) && status == "Speaking..."
      ensures visualizer.mode == "idle" && visualizer.targetColors == visualizer.idlePalette
      ensures listening == old(listening) && chatVisible == old(chatVisible) && ui == old(ui)
      ensures dragging == old(dragging) && dragOffset == old(dragOffset)
      ensures visualizer.time == old(visualizer.time) && visualizer.rotation == old(visualizer.rotation)
    {
      effect := NoEffect;
      if ContainsAny(text, ExitWords) {
        assert Dispatch(text) == Exit;
        Reply("Goodbye, Sir. It was my pleasure.", replyStamp);
        running := false;
      } else if Contains(text, "play ") {
        var song := Strip(RemoveAll(text, "play"));
        assert Dispatch(text) == Play(song);
        Reply("Playing " + song + " for you, Sir.", replyStamp);
        effect := PlayOnYouTube(song);
      } else if ContainsAny(text, TimePhrases) {
        assert Dispatch(text) == TellTime;
        Reply("The time is " + clock + ", Sir.", replyStamp);
      } else {
        var found := FindSite(text);
        if found.Some? {
          var site := Sites[found.value];
          assert Dispatch(text) == OpenSite(site);
          Reply("Opening " + site.name + " for you, Sir.", replyStamp);
          effect := OpenBrowser(site.url);
        } else {
          assert Dispatch(text) == AskBrain;
          AskModel(text, replyStamp, generate);
        }
      }
    }

    /**
     * The fallback branch of `process_command`: status "Thinking..." while the language model
     * is consulted, then its answer is the reply.
     */
    method AskModel(text: string, replyStamp: string, generate: string -> Option<string>)
      requires Valid()
      modifies this, visualizer, brain
      ensures Valid() && unchanged(visualizer.Repr)
      ensures Brain.Turn(message, brain.history)
              == Brain.ThinkOutcome(brain.ready, old(brain.history), text, generate)
      ensures status == "Speaking..."
      ensures conversation == old(conversation) + [Message("nero", message, replyStamp)]
      ensures visualizer.mode == "idle" && visualizer.targetColors == visualizer.idlePalette
      ensures running == old(running) && userText == old(userText) && listening == old(listening)
      ensures chatVisible == old(chatVisible) && ui == old(ui)
      ensures dragging == old(dragging) && dragOffset == old(dragOffset)
      ensures visualizer.time == old(visualizer.time) && visualizer.rotation == old(visualizer.rotation)
    {
      status := "Thinking...";
      var response := brain.Think(text, visualizer, generate);
      Reply(response, replyStamp);
    }

    /**
     * The tail every branch of `process_command` shares: status "Speaking...", the reply
     * stored as the last message, recorded as a 'nero' entry and spoken.
     */
    method Reply(reply: string, stamp: string)
      requires Valid()
      modifies this, visualizer
      ensures Valid() && unchanged(visualizer.Repr)
      ensures status == "Speaking..." && message == reply
      ensures conversation == old(conversation) + [Message("nero", reply, stamp)]
      ensures visualizer.mode == "idle" && visualizer.targetColors == visualizer.idlePalette
      ensures running == old(running) && userText == old(userText) && listening == old(listening)
      ensures chatVisible == old(chatVisible) && ui == old(ui)
      ensures dragging == old(dragging) && dragOffset == old(dragOffset)
      ensures visualizer.time == old(visualizer.time) && visualizer.rotation == old(visualizer.rotation)
    {
      status := "Speaking...";
      message := reply;
      AddMessage("nero", message, stamp);
      Speak(message, visualizer);
    }

    /**
     * `listen_thread`: status "Listening..." while the microphone is open; a non-empty
     * transcript is processed as a command; in every case the cycle ends with status "Ready"
     * and `listening` cleared, so the main loop may start the next one.
     */
    method ListenThread(heard: Option<string>, userStamp: string, replyStamp: string, clock: string,
                        generate: string -> Option<string>)
      returns (command: string, effect: Effect)
      requires Valid()
      modifies this, visualizer, brain
      ensures command == Transcript(heard)
      ensures Valid() && unchanged(visualizer.Repr)
      ensures status == "Ready" && !listening
      ensures command != "" ==>
                && conversation == old(conversation)
                   + [Message("user", command, userStamp), Message("nero", message, replyStamp)]
                && running == (old(running) && !Dispatch(command).Exit?)
                && effect == EffectOf(Dispatch(command))
      ensures command != "" && !Dispatch(command).AskBrain? ==>
                message == CannedReply(Dispatch(command), clock) && brain.history == old(brain.history)
      ensures command != "" && Dispatch(command).AskBrain? ==>
                Brain.Turn(message, brain.history)
                == Brain.ThinkOutcome(brain.ready, old(brain.history), command, generate)
      ensures command == "" ==>
                && conversation == old(conversation) && running == old(running)
                && brain.history == old(brain.history) && effect == NoEffect
      ensures command == "" ==> message == old(message)
      ensures userText == (if command != "" then command else old(userText))
      ensures visualizer.mode == "idle" && visualizer.targetColors == visualizer.idlePalette
      ensures chatVisible == old(chatVisible) && ui == old(ui)
      ensures dragging == old(dragging) && dragOffset == old(dragOffset)
      ensures visualizer.time == old(visualizer.time) && visualizer.rotation == old(visualizer.rotation)
    {
      SetStatus("Listening...");
      var text := Listen(visualizer, heard);
      command := if text.Some? then text.value else "";
      effect := HandleTranscript(command, userStamp, replyStamp, clock, generate);
      EndCycle();
    }

    /** Shows `s` in the status pill; nothing else changes. */
    method SetStatus(s: string)
      requires Valid()
      modifies this
      ensures Valid() && status == s
      ensures conversation == old(conversation) && running == old(running) && message == old(message)
      ensures userText == old(userText) && listening == old(listening)
      ensures chatVisible == old(chatVisible) && ui == old(ui)
      ensures dragging == old(dragging) && dragOffset == old(dragOffset)
    {
      status := s;
    }

    /** The last two steps of `listen_thread`: status back to "Ready" and the cycle marked finished. */
    method EndCycle()
      requires Valid()
      modifies this
      ensures Valid() && status == "Ready" && !listening
      ensures conversation == old(conversation) && running == old(running) && message == old(message)
      ensures userText == old(userText) && chatVisible == old(chatVisible) && ui == old(ui)
      ensures dragging == old(dragging) && dragOffset == old(dragOffset)
    {
      status := "Ready";
      listening := false;
    }

    /** The middle of `listen_thread`: an empty transcript is dropped, any other is a command. */
    method HandleTranscript(command: string, userStamp: string, replyStamp: string, clock: string,
                            generate: string -> Option<string>)
      returns (effect: Effect)
      requires Valid() && visualizer.mode == "idle" && visualizer.targetColors == visualizer.idlePalette
      modifies this, visualizer, brain
      ensures Valid() && unchanged(visualizer.Repr)
      ensures visualizer.mode == "idle" && visualizer.targetColors == visualizer.idlePalette
      ensures if command != "" then
                && conversation == old(conversation)
                   + [Message("user", command, userStamp), Message("nero", message, replyStamp)]
                && running == (old(running) && !Dispatch(command).Exit?)
                && effect == EffectOf(Dispatch(command))
                && (!Dispatch(command).AskBrain? ==>
                      message == CannedReply(Dispatch(command), clock) && brain.history == old(brain.history))
                && (Dispatch(command).AskBrain? ==>
                      Brain.Turn(message, brain.history)
                      == Brain.ThinkOutcome(brain.ready, old(brain.history), command, generate))
              else
                && conversation == old(conversation) && running == old(running)
                && brain.history == old(brain.history) && effect == NoEffect
      ensures command == "" ==> message == old(message)
      ensures userText == (if command != "" then command else old(userText))
      ensures status == (if command != "" then "Speaking..." else old(status))
      ensures listening == old(listening)
      ensures chatVisible == old(chatVisible) && ui == old(ui)
      ensures dragging == old(dragging) && dragOffset == old(dragOffset)
      ensures visualizer.time == old(visualizer.time) && visualizer.rotation == old(visualizer.rotation)
    {
      effect := NoEffect;
      if command != "" {
        effect := ProcessCommand(command, userStamp, replyStamp, clock, generate);
      }
    }

    /**
     * The listen guard of the main loop: a listen cycle starts only when none is running and
     * the status contains "Ready"; starting one sets `listening`.
     */
    method ListenGuard() returns (start: bool)
      requires Valid()
      modifies this
      ensures Valid()
      ensures start <==> !old(listening) && Contains(old(status), "Ready")
      ensures listening == (old(listening) || start)
      ensures conversation == old(conversation) && scrollOffset == old(scrollOffset)
      ensures running == old(running) && status == old(status) && message == old(message)
      ensures userText == old(userText) && chatVisible == old(chatVisible) && ui == old(ui)
      ensures dragging == old(dragging) && dragOffset == old(dragOffset)
    {
      start := false;
      if !listening && Contains(status, "Ready") {
        listening := true;
        start := true;
      }
    }

    /**
     * `greet`: the greeting for `hour` is recorded and spoken, and the status ends "Ready",
     * which opens the first listen cycle.
     */
    method Greet(hour: int, stamp: string)
      requires Valid()
      modifies this, visualizer
      ensures Valid() && unchanged(visualizer.Repr)
      ensures message == GreetingMessage(hour)
      ensures conversation == old(conversation) + [Message("nero", GreetingMessage(hour), stamp)]
      ensures status == "Ready"
      ensures visualizer.mode == "idle" && visualizer.targetColors == visualizer.idlePalette
      ensures running == old(running) && userText == old(userText) && listening == old(listening)
      ensures chatVisible == old(chatVisible) && ui == old(ui)
      ensures dragging == old(dragging) && dragOffset == old(dragOffset)
      ensures visualizer.time == old(visualizer.time) && visualizer.rotation == old(visualizer.rotation)
    {
      var greeting: string;
      if hour < 12 {
        greeting := "Good morning, Sir";
      } else if hour < 18 {
        greeting := "Good afternoon, Sir";
      } else {
        greeting := "Good evening, Sir";
      }
      message := greeting + ". Nero online and ready to assist.";
      AddMessage("nero", message, stamp);
      status := "Speaking...";
      Speak(message, visualizer);
      status := "Ready";
    }

    /**
     * One event of the main loop. Quit, Escape and a left click on close stop the
     * application; a left click on minimize or a drag motion asks the window manager; a left
     * click on the chat button toggles the panel; a left click on the title bar starts a
     * drag; releasing the left button ends it.
     */
    method HandleEvent(e: Event) returns (effect: Effect)
      requires Valid()
      modifies this
      ensures Valid()
      ensures var hit := if e.MouseDown? && e.button == 1 then HitTest(old(ui), e.x, e.y) else Nothing;
              && running == (old(running) && !(e.Quit? || (e.KeyDown? && e.isEscape) || hit == Close))
              && chatVisible == (if hit == ChatToggle then !old(chatVisible) else old(chatVisible))
              && dragging == (if hit == TitleBar then true
                              else if e.MouseUp? && e.button == 1 then false
                              else old(dragging))
              && dragOffset == (if hit == TitleBar then (e.x, e.y) else old(dragOffset))
              && effect == (if hit == Minimize then MinimizeWindow
                            else if e.MouseMotion? && old(dragging) then MoveWindow
                            else NoEffect)
      ensures conversation == old(conversation) && scrollOffset == old(scrollOffset)
      ensures status == old(status) && message == old(message)
      ensures userText == old(userText) && listening == old(listening)
    {
      effect := NoEffect;
      match e
      case Quit =>
        running := false;
      case MouseDown(button, x, y) =>
        if button == 1 {
          if Collides(ui.close, x, y) {
            running := false;
          } else if Collides(ui.minimize, x, y) {
            effect := MinimizeWindow;
          } else if Collides(ui.chat, x, y) {
            ToggleChat();
          } else if Collides(ui.title, x, y) {
            dragging := true;
            dragOffset := (x, y);
          }
        }
      case MouseUp(button) =>
        if button == 1 {
          dragging := false;
        }
      case MouseMotion =>
        if dragging {
          effect := MoveWindow;
        }
      case KeyDown(isEscape) =>
        if isEscape {
          running := false;
        }
    }
  }
}
