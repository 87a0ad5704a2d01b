/** What the insight client hands back to the analysis panel.  The network call
    itself is not modelled: its outcome is a parameter. */
module GeminiService {

  /** How the text-generation call ended. */
  datatype Reply = Answered(text: string) | Threw

  const Unavailable: string := "AI insight currently unavailable."
  const Fallback: string := "Error generating AI insights. Please check environmental factors manually."

  /** The string getAIInsights resolves to: the generated text, the "unavailable"
      text for an empty answer, the fallback text when the call inside its try block threw.  A throw before that
      block (creating the client, building the prompt) is not modelled. */
  function InsightText(reply: Reply): (s: string)
    ensures s != ""
    ensures reply.Threw? ==> s == Fallback
    ensures reply.Answered? && reply.text != "" ==> s == reply.text
    ensures reply.Answered? && reply.text == "" ==> s == Unavailable
  {
    match reply
    case Threw => Fallback
    case Answered(text) => if text != "" then text else Unavailable
  }
}
