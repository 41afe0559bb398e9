/** The advice service (src/services/geminiService.ts): the text it makes of
    the logs, the prompt around that text, and the mapping of every failure of
    the generative model to one fixed sentence. The model itself is a
    parameter: a total function from the prompt to an outcome. */
module GeminiService {
  import opened Seqs
  import opened Strings
  import opened Habits

  const EmptyLogsText: string := "No habits logged yet."

  const FallbackAdvice: string :=
    "Our AI advisor is currently recharging with solar power. Keep up the great work!"

  /** The template text before and after the logs, with its literal line
      breaks and indentation. */
  const PromptHead: string :=
    "\n      You are an expert sustainability advisor for the app \"GreenConnect\".\n"
    + "      Analyze the following list of recent user eco-habits:\n      "
  const PromptTail: string :=
    "\n\n      Provide a short, encouraging, and specific piece of advice (max 50 words) on how they can improve or what they are doing well.\n"
    + "      If the list is empty, give a general tip for starting a sustainable lifestyle.\n"
    + "      Keep the tone friendly and motivating.\n    "

  /** What the model call yields: the text of the response, or a failure
      (no key, network, quota, a malformed response) of any step. */
  datatype ModelOutcome = Generated(text: string) | Failed

  /** `- ${l.category}: ${l.description} (Impact: ${l.impact})`. */
  function FormatLog(l: Log): (line: string)
    ensures |line| > 0 && line[0] == '-'
  {
    "- " + CategoryName(l.category) + ": " + l.description + " (Impact: " + IntToString(l.impact) + ")"
  }

  /** `logsText`. */
  function LogsText(logs: seq<Log>): (text: string)
    ensures text == EmptyLogsText <==> |logs| == 0
  {
    if |logs| > 0 then
      var text := Join(Map(logs, FormatLog), "\n");
      assert text[0] == '-' by { JoinStartsWithFirst(Map(logs, FormatLog), "\n"); }
      text
    else EmptyLogsText
  }

  /** The prompt sent to the model. */
  function Prompt(logsText: string): (prompt: string)
    ensures |prompt| == |PromptHead| + |logsText| + |PromptTail|
    ensures prompt[..|PromptHead|] == PromptHead
    ensures prompt[|PromptHead|..|PromptHead| + |logsText|] == logsText
    ensures prompt[|PromptHead| + |logsText|..] == PromptTail
  {
    PromptHead + logsText + PromptTail
  }

  /** `getEcoAdvice`: the model's text, or the fallback sentence when any step fails. */
  function GetEcoAdvice(logs: seq<Log>, model: string -> ModelOutcome): (advice: string)
    ensures model(Prompt(LogsText(logs))).Failed? ==> advice == FallbackAdvice
    ensures model(Prompt(LogsText(logs))).Generated? ==> advice == model(Prompt(LogsText(logs))).text
  {
    match model(Prompt(LogsText(logs)))
    case Generated(text) => text
    case Failed => FallbackAdvice
  }

  /** A join of at least one part starts with the first part. */
  lemma JoinStartsWithFirst(parts: seq<string>, sep: string)
    requires |parts| > 0
    ensures |Join(parts, sep)| >= |parts[0]| && Join(parts, sep)[..|parts[0]|] == parts[0]
  {
  }

  /** A log's line holds a line break only if its description does. */
  lemma FormatLogSingleLine(l: Log)
    requires '\n' !in l.description
    ensures '\n' !in FormatLog(l)
  {
    var name, impact := CategoryName(l.category), IntToString(l.impact);
    assert '\n' !in name;
    NotInConcat('\n', "- ", name);
    NotInConcat('\n', "- " + name, ": ");
    NotInConcat('\n', "- " + name + ": ", l.description);
    NotInConcat('\n', "- " + name + ": " + l.description, " (Impact: ");
    NotInConcat('\n', "- " + name + ": " + l.description + " (Impact: ", impact);
    NotInConcat('\n', "- " + name + ": " + l.description + " (Impact: " + impact, ")");
  }

  /** Splitting the text on line breaks gives one line per log, in the logs'
      order, provided no description contains a line break. */
  lemma LogsTextLines(logs: seq<Log>)
    requires |logs| > 0
    requires forall i :: 0 <= i < |logs| ==> '\n' !in logs[i].description
    ensures Split(LogsText(logs), '\n') == Map(logs, FormatLog)
    ensures |Split(LogsText(logs), '\n')| == |logs|
  {
    var lines := Map(logs, FormatLog);
    forall i | 0 <= i < |lines| ensures '\n' !in lines[i] {
      FormatLogSingleLine(logs[i]);
    }
    SplitJoin(lines, '\n');
  }

  /** A model that fails on every prompt yields the fallback sentence. */
  lemma FailureNeverEscapes(logs: seq<Log>)
    ensures GetEcoAdvice(logs, p => Failed) == FallbackAdvice
  {
  }
}
