/** The answers of a response stream, and the A2A events a client sees for them. */
module Answers {
  import opened Wrappers

  /** `AnswerOperation` */
  datatype Operation = Answer | Start | Done | Error | AgentRequest | AnswerChunk | Reasoning

  datatype Feedback = Feedback(requestId: string, feedbackId: string, question: string,
                               moduleName: string, agentId: string, responseSchema: string)

  datatype Step = Step(moduleName: string, title: string, reason: Option<string>, value: Option<string>,
                       agentPath: string)

  /** `AragAnswer`, with the fields the executor looks at. */
  datatype AragAnswer = AragAnswer(operation: Operation, exception: Option<string>, feedback: Option<Feedback>,
                                   step: Option<Step>, answer: Option<string>, chunk: Option<string>,
                                   generated: Option<string>)

  datatype Event =
    | StepArtifact(title: string, moduleName: string, reason: string, value: string, agentPath: string)
    | AnswerArtifact(text: string)
    | RequiresInput(feedback: Feedback)
    | Failed(text: string)
    | Completed

  const ENDED := "Hyperforge response stream ended unexpectedly"
  const INTERRUPTED := "A2A task was interrupted by a server restart; resend the request to continue"

  function Or(v: Option<string>, default: string): string {
    if v.Some? && v.value != "" then v.value else default
  }

  /** `answer.exception.detail if answer.exception else "Unknown error"` */
  function Detail(a: AragAnswer): string {
    if a.exception.Some? then a.exception.value else "Unknown error"
  }

  predicate HasText(v: Option<string>) { v.Some? && v.value != "" }

  /** `arag_answer_to_parts`: the first non-empty text, if any. */
  function Parts(a: AragAnswer): Option<string> {
    if HasText(a.answer) then a.answer
    else if HasText(a.chunk) then a.chunk
    else if HasText(a.generated) then a.generated
    else None
  }

  /** What `publish_step` and, without a step, `add_artifact` emit. */
  function Shown(a: AragAnswer): seq<Event> {
    match a.step
    case Some(s) => [StepArtifact(s.title, s.moduleName, Or(s.reason, ""), Or(s.value, ""), s.agentPath)]
    case None => match Parts(a)
      case Some(text) => [AnswerArtifact(text)]
      case None => []
  }

  predicate IsPause(a: AragAnswer) { a.operation == AgentRequest && a.feedback.Some? }

  /** The four branches both stream loops of the executor take. */
  datatype Reaction = Fail(detail: string) | Pause(feedback: Feedback) | Finish | Show(events: seq<Event>)

  function React(a: AragAnswer): Reaction {
    if a.operation == Error then Fail(Detail(a))
    else if IsPause(a) then Pause(a.feedback.value)
    else if a.operation == Done then Finish
    else Show(Shown(a))
  }
}
