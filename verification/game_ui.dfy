/** The game screen's turn gate and the text it types out. */
module GameUi {
  import opened Wrappers
  import Text
  import Reducer

  /** What a submit produces: the action sent to the narrator, if any, and
      the input box's new contents. */
  datatype Submission = Submission(action: Option<string>, input: string)

  /** The form's submit handler: send the trimmed input unless it is blank
      or the narrator is still thinking, then clear the box. */
  function HandleSubmit(input: string, isDMThinking: bool): (r: Submission)
    ensures r.action.Some? <==> !Text.AllSpace(input) && !isDMThinking
    ensures r.action.Some? ==> r.action.value == Text.Trim(input) && r.input == ""
    ensures r.action.Some? ==> r.action.value != "" && Text.Trimmed(r.action.value)
    ensures r.action.None? ==> r.input == input
  {
    var trimmed := Text.Trim(input);
    if trimmed != "" && !isDMThinking then Submission(Some(trimmed), "") else Submission(None, input)
  }

  /** Shown while the log is empty (or its last line is). */
  const OpeningLine: string := "La aventura comienza..."

  /** The text the typing effect shows: the last log line, or the opening line. */
  function LastStoryText(log: seq<string>): (r: string)
    ensures r != ""
    ensures |log| > 0 && log[|log| - 1] != "" ==> r == log[|log| - 1]
    ensures |log| == 0 || log[|log| - 1] == "" ==> r == OpeningLine
  {
    if |log| > 0 && log[|log| - 1] != "" then log[|log| - 1] else OpeningLine
  }

  /** If the accepted action is dispatched as APPEND_STORY's player action,
      the log gains the player's line followed by the narrator's reply,
      which becomes the text on screen. (The app never wires the two.) */
  lemma AcceptedTurnIsLogged(input: string, log: seq<string>, storyText: string)
    requires HandleSubmit(input, false).action.Some? && storyText != ""
    ensures var log' := Reducer.AppendLog(log, HandleSubmit(input, false).action, storyText);
            && log' == log + [Reducer.PlayerPrefix + Text.Trim(input), storyText]
            && LastStoryText(log') == storyText
  {
  }

  /** A rejected submit changes nothing, and resubmitting the text that was
      sent sends it again unchanged. */
  lemma SubmitStable(input: string, isDMThinking: bool)
    ensures HandleSubmit(input, true) == Submission(None, input)
    ensures HandleSubmit(input, isDMThinking).action.Some? ==>
              HandleSubmit(HandleSubmit(input, isDMThinking).action.value, false).action
                == HandleSubmit(input, isDMThinking).action
  {
    Text.TrimIdempotent(input);
  }
}
