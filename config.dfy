/**
 * The constants of config/settings.py that the modelled code reads: window geometry,
 * chat colours and the language-model system prompt.
 */
module Config {

  /** An RGB triple as the source writes colour tuples. */
  datatype Color = Color(r: int, g: int, b: int)

  const Width: int := 950
  const Height: int := 650
  const VisualizerWidth: int := 500
  const TitleBarHeight: int := 35

  const ChatUserAccent: Color := Color(0, 200, 150)
  const ChatNeroAccent: Color := Color(0, 200, 255)
  const ChatUserBg: Color := Color(20, 35, 30)
  const ChatNeroBg: Color := Color(20, 30, 40)

  /** The three-line system prompt, with the line breaks of the triple-quoted `SYSTEM_PROMPT` of config/settings.py. */
  const SystemPrompt: string :=
    "You are NERO, an advanced AI assistant like JARVIS.\n" +
    "You are sophisticated and speak elegantly. Address user as \"Sir\" occasionally.\n" +
    "Keep responses concise (1-2 sentences) for voice. You ARE Nero."
}
