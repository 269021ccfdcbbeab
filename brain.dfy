/**
 * The language-model front end of modules/brain.py. The model client is an oracle
 * `generate`: `Some(text)` is the `.text` of a response, `None` a call that raised (or a
 * response without text). The conversation memory is a list of "User: …" and "Nero: …" lines,
 * of which the last six are sent along with each prompt.
 */
module Brain {
  import opened Prelude
  import opened Config
  import opened Text
  import opened Visualizer

  const ContextLines: nat := 6

  const Offline: string := "My AI systems are offline."

  function UserLine(prompt: string): string { "User: " + prompt }

  function NeroLine(reply: string): string { "Nero: " + reply }

  predicate IsUserLine(line: string) { "User: " <= line }

  predicate IsNeroLine(line: string) { "Nero: " <= line }

  /** `"\n".join(history[-6:])`. */
  function Context(history: seq<string>): string
  {
    Join(LastN(history, ContextLines), "\n")
  }

  /** The prompt of the primary call: system prompt, a blank line, the context, then "Nero:". */
  function FullPrompt(history: seq<string>): string
  {
    SystemPrompt + "\n\n" + Context(history) + "\nNero:"
  }

  /** The prompt of the fallback call, which carries no history. */
  function FallbackPrompt(prompt: string): string
  {
    "You are Nero, an AI assistant. Respond briefly to: " + prompt
  }

  /** The reply when both calls fail. */
  function ConnectionIssue(prompt: string): string
  {
    "I heard you say: " + prompt + ". My AI connection is having issues."
  }

  /** What one call of `think` returns, and the history it leaves. */
  datatype Turn = Turn(reply: string, history: seq<string>)

  /**
   * `think` on values. Not ready: the offline reply and an untouched history. Otherwise
   * the user line is recorded first; a successful primary call records the stripped reply
   * as a Nero line; a failed one falls back to a history-free prompt whose answer is never
   * recorded, and if that fails too, to a canned apology.
   */
  function ThinkOutcome(ready: bool, history: seq<string>, prompt: string,
                        generate: string -> Option<string>): Turn
  {
    if !ready then Turn(Offline, history)
    else
      var recorded := history + [UserLine(prompt)];
      match generate(FullPrompt(recorded))
      case Some(text) =>
        var result := Strip(text);
        Turn(result, recorded + [NeroLine(result)])
      case None =>
        match generate(FallbackPrompt(prompt))
        case Some(text) => Turn(Strip(text), recorded)
        case None => Turn(ConnectionIssue(prompt), recorded)
  }

  /** The last `n + 1` lines of a history ending in `line` are the last `n` before it, then `line`. */
  lemma LastNSnoc(history: seq<string>, line: string, n: nat)
    requires n > 0
    ensures LastN(history + [line], n + 1) == LastN(history, n) + [line]
  {
    var h := history + [line];
    assert LastN(h, n + 1) == h[|h| - Min(n + 1, |h|)..];
    assert h[|h| - Min(n + 1, |h|)..] == history[|history| - Min(n, |history|)..] + [line];
  }

  /**
   * Once the user line is recorded, the context sent to the model is at most six lines and
   * its last line is the current prompt.
   */
  lemma ContextEndsWithPrompt(history: seq<string>, prompt: string)
    ensures var window := LastN(history + [UserLine(prompt)], ContextLines);
            |window| <= ContextLines && window[|window| - 1] == UserLine(prompt)
    ensures EndsWith(Context(history + [UserLine(prompt)]), UserLine(prompt))
  {
    var u := UserLine(prompt);
    LastNSnoc(history, u, ContextLines - 1);
    var before := LastN(history, ContextLines - 1);
    JoinSnoc(before, u, "\n");
  }

  /**
   * The primary prompt opens with the system prompt and a blank line and closes with the
   * current user line followed by the "Nero:" cue.
   */
  lemma FullPromptShape(history: seq<string>, prompt: string)
    ensures var p := FullPrompt(history + [UserLine(prompt)]);
            SystemPrompt + "\n\n" <= p && EndsWith(p, UserLine(prompt) + "\nNero:")
  {
    var u := UserLine(prompt);
    var c := Context(history + [u]);
    ContextEndsWithPrompt(history, prompt);
    var p := SystemPrompt + "\n\n" + c + "\nNero:";
    assert p == (SystemPrompt + "\n\n" + c[..|c| - |u|]) + (u + "\nNero:");
  }

  /**
   * How the history changes: never when offline; otherwise by the user line, then by a
   * Nero line holding the reply exactly when the primary call succeeded. Earlier lines are
   * never touched.
   */
  lemma ThinkHistory(ready: bool, history: seq<string>, prompt: string,
                     generate: string -> Option<string>)
    ensures var t := ThinkOutcome(ready, history, prompt, generate);
            && history <= t.history
            && (!ready ==> t.history == history && t.reply == Offline)
            && (ready ==> |t.history| > |history| && t.history[|history|] == UserLine(prompt))
            && (|t.history| == |history| + 2 <==>
                  ready && generate(FullPrompt(history + [UserLine(prompt)])).Some?)
            && (|t.history| == |history| + 2 ==> t.history[|history| + 1] == NeroLine(t.reply))
            && |t.history| <= |history| + 2
  {
  }

  /** When both calls fail the apology quotes the prompt, and nothing but the user line is kept. */
  lemma ThinkBothFail(history: seq<string>, prompt: string, generate: string -> Option<string>)
    requires generate(FullPrompt(history + [UserLine(prompt)])).None?
    requires generate(FallbackPrompt(prompt)).None?
    ensures ThinkOutcome(true, history, prompt, generate)
            == Turn(ConnectionIssue(prompt), history + [UserLine(prompt)])
  {
  }

  /**
   * A well-formed memory: every line is a user line or a Nero line, and every Nero line
   * directly follows a user line.
   */
  predicate WellFormed(history: seq<string>)
  {
    && (forall k :: 0 <= k < |history| ==> IsUserLine(history[k]) || IsNeroLine(history[k]))
    && (forall k :: 0 <= k < |history| && IsNeroLine(history[k]) ==>
          0 < k && IsUserLine(history[k - 1]))
  }

  /** No line is both a user line and a Nero line. */
  lemma TagsDistinct(line: string)
    ensures IsUserLine(line) ==> !IsNeroLine(line)
  {
    if IsUserLine(line) {
      assert line[0] == 'U';
    }
  }

  /** `think` keeps the memory well formed. */
  lemma ThinkKeepsWellFormed(ready: bool, history: seq<string>, prompt: string,
                             generate: string -> Option<string>)
    requires WellFormed(history)
    ensures WellFormed(ThinkOutcome(ready, history, prompt, generate).history)
  {
    var u := UserLine(prompt);
    TagsDistinct(u);
    var recorded := history + [u];
    assert IsUserLine(u);
    assert WellFormed(recorded);
    forall reply: string ensures WellFormed(recorded + [NeroLine(reply)]) {
      assert IsNeroLine(NeroLine(reply));
      var h := recorded + [NeroLine(reply)];
      assert h[|h| - 2] == u;
    }
  }

  class Brain {
    /** Whether the client could be created; fixed at construction. */
    const ready: bool
    /** The conversation memory. */
    var history: seq<string>

    /** `__init__`: creating the client either succeeds or raises (`clientOk`). */
    constructor (clientOk: bool)
      ensures ready == clientOk && history == []
    {
      ready := clientOk;
      history := [];
    }

    /**
     * `think`: the visualizer, when there is one, is switched to "thinking" before
     * anything else, even when offline; the reply and the new memory are `ThinkOutcome`.
     */
    method Think(prompt: string, visualizer: CircularSpectrum?, generate: string -> Option<string>)
      returns (reply: string)
      requires visualizer != null ==> visualizer.Valid()
      modifies this, visualizer
      ensures Turn(reply, history) == ThinkOutcome(ready, old(history), prompt, generate)
      ensures visualizer != null ==>
                && visualizer.Valid() && unchanged(visualizer.Repr)
                && visualizer.mode == "thinking"
                && visualizer.targetColors == visualizer.thinkingPalette
                && visualizer.time == old(visualizer.time)
                && visualizer.rotation == old(visualizer.rotation)
    {
      if visualizer != null {
        visualizer.SetMode("thinking");
      }
      if !ready {
        return Offline;
      }
      history := history + [UserLine(prompt)];
      var recentHistory := LastN(history, ContextLines);
      var context := Join(recentHistory, "\n");
      var fullPrompt := SystemPrompt + "\n\n" + context + "\nNero:";
      assert fullPrompt == FullPrompt(old(history) + [UserLine(prompt)]);
      var response := generate(fullPrompt);
      if response.Some? {
        var result := Strip(response.value);
        history := history + [NeroLine(result)];
        return result;
      }
      var fallback := generate(FallbackPrompt(prompt));
      if fallback.Some? {
        return Strip(fallback.value);
      }
      return ConnectionIssue(prompt);
    }
  }
}
