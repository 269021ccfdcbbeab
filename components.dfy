/**
 * The layout and labelling decisions of ui/components.py: the title-bar hitboxes, the
 * window of conversation entries the chat panel shows, the rows that fit, the shortened
 * text, the speaker style of a row and the status pill. Pixels are never drawn here; only
 * the numbers handed to the drawing calls are.
 */
module Components {
  import opened Prelude
  import opened Config
  import opened Text

  /** One conversation entry: `{'role': ..., 'text': ..., 'time': ...}`. */
  datatype Message = Message(role: string, text: string, time: string)

  // ---------------------------------------------------------------- hitboxes

  /** `pygame.Rect(x, y, w, h)`. */
  datatype Rect = Rect(x: int, y: int, w: int, h: int)

  /** `Rect.collidepoint`: the left and top edges are inside, the right and bottom ones are not. */
  predicate Collides(r: Rect, px: int, py: int)
  {
    r.x <= px < r.x + r.w && r.y <= py < r.y + r.h
  }

  const ButtonSize: int := 30

  /** The four title-bar rectangles `UIComponents.__init__` builds. */
  datatype Hitboxes = Hitboxes(close: Rect, minimize: Rect, chat: Rect, title: Rect)

  /** `UIComponents.__init__` for a window `width` pixels wide. */
  function MakeHitboxes(width: int): (h: Hitboxes)
    ensures h.close.y == 0 && h.minimize.y == 0 && h.chat.y == 0 && h.title.y == 0
    ensures h.close.h == TitleBarHeight && h.minimize.h == TitleBarHeight
    ensures h.chat.h == TitleBarHeight && h.title.h == TitleBarHeight
    ensures h.close.x + h.close.w == width
    ensures h.minimize.x + h.minimize.w == h.close.x
    ensures h.chat.x + h.chat.w == h.minimize.x
    ensures h.title.x == 0 && h.title.w == h.chat.x
  {
    Hitboxes(
      Rect(width - ButtonSize, 0, ButtonSize, TitleBarHeight),
      Rect(width - ButtonSize * 2, 0, ButtonSize, TitleBarHeight),
      Rect(width - ButtonSize * 3, 0, ButtonSize, TitleBarHeight),
      Rect(0, 0, width - ButtonSize * 3, TitleBarHeight))
  }

  /** What a left click lands on. */
  datatype Button = Close | Minimize | ChatToggle | TitleBar | Nothing

  /** The `if … elif …` chain of the left-click handler: close, minimize, chat toggle, title bar. */
  function HitTest(h: Hitboxes, px: int, py: int): Button
  {
    if Collides(h.close, px, py) then Close
    else if Collides(h.minimize, px, py) then Minimize
    else if Collides(h.chat, px, py) then ChatToggle
    else if Collides(h.title, px, py) then TitleBar
    else Nothing
  }

  /** The bar of height 35 across the top of a window `width` wide. */
  predicate InTitleBar(width: int, px: int, py: int)
  {
    0 <= px < width && 0 <= py < TitleBarHeight
  }

  /**
   * For any window at least three buttons wide, the four rectangles are pairwise disjoint
   * and together cover exactly the title bar: a point lies in the bar iff exactly one of
   * them contains it.
   */
  lemma HitboxesPartitionTitleBar(width: int, px: int, py: int)
    requires width >= 3 * ButtonSize
    ensures var h := MakeHitboxes(width);
            var n := (if Collides(h.close, px, py) then 1 else 0)
                     + (if Collides(h.minimize, px, py) then 1 else 0)
                     + (if Collides(h.chat, px, py) then 1 else 0)
                     + (if Collides(h.title, px, py) then 1 else 0);
            (InTitleBar(width, px, py) ==> n == 1) && (!InTitleBar(width, px, py) ==> n == 0)
  {
  }

  /**
   * Where each button sits, as an if-and-only-if: close is the rightmost 30 pixels of the bar,
   * minimize the 30 before them, the chat toggle the 30 before those, the title the rest.
   */
  lemma HitTestRegions(width: int, px: int, py: int)
    requires width >= 3 * ButtonSize
    ensures var b := HitTest(MakeHitboxes(width), px, py);
            && (b == Close <==> InTitleBar(width, px, py) && width - 30 <= px)
            && (b == Minimize <==> InTitleBar(width, px, py) && width - 60 <= px < width - 30)
            && (b == ChatToggle <==> InTitleBar(width, px, py) && width - 90 <= px < width - 60)
            && (b == TitleBar <==> InTitleBar(width, px, py) && px < width - 90)
            && (b == Nothing <==> !InTitleBar(width, px, py))
  {
  }

  // ---------------------------------------------------------------- visible window

  /** A Python slice bound normalised against a sequence of length `n`. */
  function PyIndex(i: int, n: nat): (k: nat)
    ensures k <= n
    ensures 0 <= i <= n ==> k == i
    ensures i > n ==> k == n
    ensures i < 0 ==> k == Max(0, n + i)
  {
    if i < 0 then (if n + i < 0 then 0 else n + i) else if i > n then n else i
  }

  /** Python's `xs[start:stop]`. */
  function PySlice<T>(xs: seq<T>, start: int, stop: int): (r: seq<T>)
    ensures |r| <= |xs|
    ensures 0 <= start <= stop ==> |r| <= stop - start
    ensures stop <= start && (0 <= stop || start < 0) ==> r == []
  {
    var a := PyIndex(start, |xs|);
    var b := PyIndex(stop, |xs|);
    if a <= b then xs[a..b] else []
  }

  /**
   * `conversation[scroll_offset:scroll_offset + max_visible_messages]`: for a non-negative
   * offset, at most `maxVisible` consecutive entries starting at the offset (fewer near the end).
   */
  function VisibleMessages(conversation: seq<Message>, offset: int, maxVisible: int): (v: seq<Message>)
    ensures 0 <= offset && 0 <= maxVisible ==>
              |v| <= maxVisible
              && v == conversation[Min(offset, |conversation|)..Min(offset + maxVisible, |conversation|)]
  {
    PySlice(conversation, offset, offset + maxVisible)
  }

  // ---------------------------------------------------------------- rows

  const MessageHeight: int := 45

  /** Top of row `i`: 60 below the top of the chat panel, rows 45 apart. */
  function RowY(i: int): int
  {
    TitleBarHeight + 60 + i * MessageHeight
  }

  /** The break test of the row loop, negated: the row ends at least 20 pixels above the bottom. */
  predicate RowFits(i: int)
  {
    RowY(i) + MessageHeight <= Height - 20
  }

  /** The number of rows the panel can hold. */
  const MaxRows: nat := 11

  /** With a 650-pixel window, rows 0 to 10 fit and row 11 is the first that does not. */
  lemma RowFitsIff(i: nat)
    ensures RowFits(i) <==> i < MaxRows
  {
  }

  /** The accent, speaker prefix and bubble colour of a row. */
  datatype RoleStyle = RoleStyle(accent: Color, prefix: string, background: Color)

  /** Role 'user' is drawn as "You" in the user colours; every other role as "Nero". */
  function StyleOf(role: string): (s: RoleStyle)
    ensures s.prefix == "You" <==> role == "user"
    ensures s.prefix == "Nero" <==> role != "user"
    ensures role == "user" ==> s.accent == ChatUserAccent && s.background == ChatUserBg
    ensures role != "user" ==> s.accent == ChatNeroAccent && s.background == ChatNeroBg
  {
    if role == "user" then RoleStyle(ChatUserAccent, "You", ChatUserBg)
    else RoleStyle(ChatNeroAccent, "Nero", ChatNeroBg)
  }

  const MaxChars: nat := 45

  /** The shown text: the first 45 characters and "..." when longer than 45, else the text itself. */
  function Truncate(text: string): (r: string)
    ensures |r| <= MaxChars + 3
    ensures |text| <= MaxChars ==> r == text
    ensures |text| > MaxChars ==> |r| == MaxChars + 3 && r[..MaxChars] == text[..MaxChars]
                                  && r[MaxChars..] == "..."
  {
    if |text| > MaxChars then text[..MaxChars] + "..." else text
  }

  /** Shortening an already shortened text changes nothing. */
  lemma TruncateIdempotent(text: string)
    ensures Truncate(Truncate(text)) == Truncate(text)
  {
    if |text| > MaxChars {
      var r := Truncate(text);
      assert r[..MaxChars] + "..." == r;
    }
  }

  /** What one drawn bubble shows. */
  datatype Row = Row(y: int, style: RoleStyle, time: string, text: string)

  function RowFor(m: Message, i: int): Row
  {
    Row(RowY(i), StyleOf(m.role), m.time, Truncate(m.text))
  }

  /**
   * The row loop of `draw_chat_panel`: rows are laid out top to bottom and the loop stops
   * at the first row that would not fit, so it draws the first `min(|visible|, 11)` entries.
   */
  method ChatRows(visible: seq<Message>) returns (rows: seq<Row>)
    ensures |rows| == Min(|visible|, MaxRows)
    ensures forall i :: 0 <= i < |rows| ==> rows[i] == RowFor(visible[i], i) && RowFits(i)
  {
    rows := [];
    for i := 0 to |visible|
      invariant |rows| == Min(i, MaxRows)
      invariant forall j :: 0 <= j < |rows| ==> rows[j] == RowFor(visible[j], j) && RowFits(j)
    {
      var y := RowY(i);
      if y + MessageHeight > Height - 20 {
        RowFitsIff(i);
        break;
      }
      RowFitsIff(i);
      rows := rows + [RowFor(visible[i], i)];
    }
  }

  // ---------------------------------------------------------------- status pill

  /** The dot colour and label of the status pill. */
  datatype Pill = Pill(dot: Color, text: string)

  const ListeningPill: Pill := Pill(Color(0, 255, 150), "Listening...")
  const SpeakingPill: Pill := Pill(Color(255, 100, 200), "Speaking...")
  const ThinkingPill: Pill := Pill(Color(150, 100, 255), "Thinking...")
  const ReadyPill: Pill := Pill(Color(0, 255, 255), "Ready")

  /** The status pill: "Listen", "Speak" and "Think" are looked for in that order; else "Ready". */
  function StatusPill(status: string): (p: Pill)
    ensures p == ListeningPill <==> Contains(status, "Listen")
    ensures p == SpeakingPill <==> !Contains(status, "Listen") && Contains(status, "Speak")
    ensures p == ThinkingPill <==>
              !Contains(status, "Listen") && !Contains(status, "Speak") && Contains(status, "Think")
    ensures p == ReadyPill <==>
              !Contains(status, "Listen") && !Contains(status, "Speak") && !Contains(status, "Think")
  {
    if Contains(status, "Listen") then ListeningPill
    else if Contains(status, "Speak") then SpeakingPill
    else if Contains(status, "Think") then ThinkingPill
    else ReadyPill
  }

  /** The statuses the application sets are shown with the pill of the same name. */
  lemma ListeningPillShown()
    ensures StatusPill("Listening...") == ListeningPill
  {
    assert "Listen" <= "Listening...";
  }

  lemma SpeakingPillShown()
    ensures StatusPill("Speaking...") == SpeakingPill
  {
    MissingCharNotContained("Speaking...", "Listen", 'L');
    assert "Speak" <= "Speaking...";
  }

  /** Which keywords "Thinking..." holds. */
  lemma ThinkingKeywords(status: string)
    requires status == "Thinking..."
    ensures !Contains(status, "Listen") && !Contains(status, "Speak") && Contains(status, "Think")
  {
    MissingCharNotContained(status, "Listen", 'L');
    MissingCharNotContained(status, "Speak", 'S');
    assert "Think" <= status;
  }

  lemma ThinkingPillShown()
    ensures StatusPill("Thinking...") == ThinkingPill
  {
    ThinkingKeywords("Thinking...");
  }

  lemma ReadyPillShown()
    ensures StatusPill("Ready") == ReadyPill
  {
    MissingCharNotContained("Ready", "Listen", 'L');
    MissingCharNotContained("Ready", "Speak", 'S');
    MissingCharNotContained("Ready", "Think", 'T');
  }

  /** The start-up status "Initializing..." names none of the keywords and falls through to "Ready". */
  lemma InitializingShowsReady()
    ensures StatusPill("Initializing...") == ReadyPill
  {
    InitializingKeywords("Initializing...");
  }

  /** "Initializing..." holds none of the three keywords. */
  lemma InitializingKeywords(status: string)
    requires status == "Initializing..."
    ensures !Contains(status, "Listen") && !Contains(status, "Speak") && !Contains(status, "Think")
  {
    MissingCharNotContained(status, "Listen", 'L');
    MissingCharNotContained(status, "Speak", 'S');
    MissingCharNotContained(status, "Think", 'T');
  }
}
