/** A response stream seen directly, and seen through a relay topic by the replica
    that took the client's feedback. */
module Relay {
  import opened Wrappers
  import opened Answers

  // ---- What each side does with a whole stream ----

  /** `_stream_until_pause`: the events of the owner's own client. */
  function Streamed(stream: seq<AragAnswer>): seq<Event> {
    if stream == [] then [Failed(ENDED)] else
    match React(stream[0])
    case Fail(detail) => [Failed(detail)]
    case Pause(feedback) => [RequiresInput(feedback)]
    case Finish => [Completed]
    case Show(events) => events + Streamed(stream[1..])
  }

  datatype Message = AgentAnswer(answer: AragAnswer) | AgentDone | AgentPing

  const EndAnswer: AragAnswer := AragAnswer(Error, Some(ENDED), None, None, None, None, None)

  /** What `_relay_until_pause` publishes for one answer, and whether it stops there. */
  function Published(a: AragAnswer): (r: (seq<Message>, bool))
  {
    match React(a)
    case Fail(_) => ([AgentAnswer(a), AgentDone], true)
    case Pause(_) => ([AgentAnswer(a)], true)
    case Finish => ([AgentDone], true)
    case Show(_) => ([AgentAnswer(a)], false)
  }

  /** `_relay_until_pause`: the relay topic's log. */
  function Relayed(stream: seq<AragAnswer>): seq<Message> {
    if stream == [] then [AgentAnswer(EndAnswer), AgentDone]
    else if Published(stream[0]).1 then Published(stream[0]).0
    else Published(stream[0]).0 + Relayed(stream[1..])
  }

  /** The body of the loop in `_forward_feedback`: the events for one relayed message,
      and whether the loop returns. */
  function Forwarded(m: Message): (seq<Event>, bool) {
    match m
    case AgentAnswer(a) =>
      if a.operation == Error then ([Failed(Detail(a))], true)
      else if IsPause(a) then ([RequiresInput(a.feedback.value)], true)
      else (Shown(a), false)
    case AgentDone => ([Completed], true)
    case AgentPing => ([], false)
  }

  /** The loop in `_forward_feedback` over the messages delivered so far. */
  function Forward(log: seq<Message>): (seq<Event>, bool) {
    if log == [] then ([], false)
    else if Forwarded(log[0]).1 then Forwarded(log[0])
    else (Forwarded(log[0]).0 + Forward(log[1..]).0, Forward(log[1..]).1)
  }

  // ---- The refinement, on whole streams ----

  /** The forwarder shows what the owner's own client would have seen, and stops. */
  lemma {:induction false} RelayKeepsEvents(stream: seq<AragAnswer>)
    ensures Forward(Relayed(stream)) == (Streamed(stream), true)
  {
    if stream == [] {
      assert Relayed(stream)[0] == AgentAnswer(EndAnswer);
    } else if Published(stream[0]).1 {
      assert Relayed(stream)[0] == Published(stream[0]).0[0];
    } else {
      RelayKeepsEvents(stream[1..]);
      assert React(stream[0]) == Show(Shown(stream[0]));
      assert Relayed(stream)[0] == AgentAnswer(stream[0]);
      assert Relayed(stream)[1..] == Relayed(stream[1..]);
      assert Forward(Relayed(stream)).0 == Streamed(stream);
    }
  }

  // ---- What a client sees ----

  /** The first of the three texts that is there and not empty is what an answer says. */
  predicate Says(a: AragAnswer, text: string) {
    text != "" &&
    (a.answer == Some(text)
     || (a.answer in {None, Some("")} && a.chunk == Some(text))
     || (a.answer in {None, Some("")} && a.chunk in {None, Some("")} && a.generated == Some(text)))
  }

  /** The events of a response stream, answer by answer: an error ends it with its detail, a
      question pauses it, the end of the work completes it; a step is shown with its own data
      and no text, anything else with its text; and a stream that just ends has failed. */
  lemma StreamShows(a: AragAnswer, rest: seq<AragAnswer>)
    ensures Streamed([]) == [Failed("Hyperforge response stream ended unexpectedly")]
    ensures a.operation == Error ==>
              Streamed([a] + rest) == [Failed(if a.exception.Some? then a.exception.value else "Unknown error")]
    ensures a.operation == AgentRequest && a.feedback.Some? ==> Streamed([a] + rest) == [RequiresInput(a.feedback.value)]
    ensures a.operation == Done ==> Streamed([a] + rest) == [Completed]
    ensures a.operation != Error && a.operation != Done && !(a.operation == AgentRequest && a.feedback.Some?) ==>
              && (a.step.Some? ==>
                    Streamed([a] + rest) ==
                    [StepArtifact(a.step.value.title, a.step.value.moduleName,
                                  if a.step.value.reason.Some? then a.step.value.reason.value else "",
                                  if a.step.value.value.Some? then a.step.value.value.value else "",
                                  a.step.value.agentPath)] + Streamed(rest))
              && (a.step.None? ==>
                    && (forall text :: Says(a, text) ==> Streamed([a] + rest) == [AnswerArtifact(text)] + Streamed(rest))
                    && ((forall text :: !Says(a, text)) ==> Streamed([a] + rest) == Streamed(rest)))
  {
    assert ([a] + rest)[0] == a && ([a] + rest)[1..] == rest;
    if a.step.None? {
      match Parts(a)
      case Some(text) => assert Says(a, text);
      case None =>
    }
  }

  lemma {:induction false} ForwardConcat(a: seq<Message>, b: seq<Message>)
    ensures Forward(a + b) == if Forward(a).1 then Forward(a) else (Forward(a).0 + Forward(b).0, Forward(b).1)
  {
    hide Forwarded;
    if a == [] {
      assert a + b == b && [] + Forward(b).0 == Forward(b).0;
    } else {
      assert (a + b)[0] == a[0] && (a + b)[1..] == a[1..] + b;
      if !Forwarded(a[0]).1 {
        ForwardConcat(a[1..], b);
        var first := Forwarded(a[0]).0;
        assert first + (Forward(a[1..]).0 + Forward(b).0) == (first + Forward(a[1..]).0) + Forward(b).0;
      }
    }
  }

  // ---- Conversations over many pauses ----

  /** The stream after the first pause, if it pauses. */
  function Rest(stream: seq<AragAnswer>): (r: Option<seq<AragAnswer>>)
    ensures r.Some? ==> |r.value| < |stream|
  {
    if stream == [] then None
    else match React(stream[0])
      case Pause(_) => Some(stream[1..])
      case Show(_) => Rest(stream[1..])
      case _ => None
  }

  /** The events of every request of a conversation whose owner answers all of them. */
  function Conversation(stream: seq<AragAnswer>): seq<seq<Event>>
    decreases |stream|
  {
    [Streamed(stream)] + match Rest(stream) case None => [] case Some(rest) => Conversation(rest)
  }

  /** The same conversation when every feedback is taken by some replica that relays. */
  function Resumed(stream: seq<AragAnswer>): seq<seq<Event>>
    decreases |stream|
  {
    match Rest(stream)
    case None => []
    case Some(rest) => [Forward(Relayed(rest)).0] + Resumed(rest)
  }

  lemma {:induction false} ConversationKeepsEvents(stream: seq<AragAnswer>)
    ensures [Streamed(stream)] + Resumed(stream) == Conversation(stream)
    decreases |stream|
  {
    match Rest(stream)
    case None =>
    case Some(rest) =>
      RelayKeepsEvents(rest);
      ConversationKeepsEvents(rest);
  }
}
