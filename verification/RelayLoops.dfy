/** The three stream loops of the executor and the in-process broker's topics, as
    they run: on a client's event queue and on a topic both sides share. */
module RelayLoops {
  import opened Wrappers
  import opened Answers
  import opened Relay
  import opened RelayRun

  /** The client's side of a request. */
  class TaskUpdater {
    var events: seq<Event>

    constructor ()
      ensures events == []
    {
      events := [];
    }

    method Emit(event: Event)
      modifies this
      ensures events == old(events) + [event]
    {
      events := events + [event];
    }

    /** `publish_step`, then `add_artifact` for an answer without a step. */
    method Show(a: AragAnswer)
      modifies this
      ensures events == old(events) + Shown(a)
    {
      if a.step.Some? {
        var s := a.step.value;
        Emit(StepArtifact(s.title, s.moduleName, Or(s.reason, ""), Or(s.value, ""), s.agentPath));
      } else {
        var parts := Parts(a);
        if parts.Some? {
          Emit(AnswerArtifact(parts.value));
        }
      }
    }
  }

  /** `LocalBroker`: append-only topics whose entries get cursors from one counter. */
  class LocalBroker {
    var streams: map<string, Log>
    var counter: nat

    ghost predicate Valid()
      reads this
    {
      forall topic :: topic in streams ==>
        Ascending(streams[topic]) && forall e :: e in streams[topic] ==> e.cursor <= counter
    }

    function Topic(topic: string): Log
      reads this
    {
      if topic in streams then streams[topic] else []
    }

    constructor ()
      ensures Valid() && streams == map[] && counter == 0
    {
      streams := map[];
      counter := 0;
    }

    method Publish(topic: string, message: Message)
      requires Valid()
      modifies this
      ensures Valid() && counter == old(counter) + 1
      ensures Topic(topic) == old(Topic(topic)) + [Entry(counter, message)]
      ensures forall other :: other != topic ==> Topic(other) == old(Topic(other))
    {
      if topic !in streams {
        streams := streams[topic := []];
      }
      counter := counter + 1;
      streams := streams[topic := streams[topic] + [Entry(counter, message)]];
    }

    /** What a subscription from a cursor reads first: the topic strictly after it. */
    method ReadFrom(topic: string, cursor: nat) returns (batch: Log)
      requires Valid()
      ensures batch == Topic(topic)[StartIndex(Topic(topic), cursor)..]
    {
      var messages := if topic in streams then streams[topic] else [];
      var last := 0;
      if cursor != 0 {
        for i := 0 to |messages|
          invariant last == 0 && IndexAfter(messages, cursor, 0) == IndexAfter(messages, cursor, i)
        {
          if messages[i].cursor == cursor {
            last := i + 1;
            break;
          }
        }
      }
      batch := messages[last..];
    }
  }

  /** `_stream_until_pause` without cancellation; `read` answers were taken from the stream. */
  method StreamUntilPause(stream: seq<AragAnswer>, updater: TaskUpdater) returns (read: nat)
    modifies updater
    ensures updater.events == old(updater.events) + Streamed(stream)
    ensures read <= |stream| && (Rest(stream).Some? ==> Rest(stream).value == stream[read..])
  {
    hide Shown, Detail;
    read := 0;
    while read < |stream|
      invariant read <= |stream|
      invariant updater.events + Streamed(stream[read..]) == old(updater.events) + Streamed(stream)
      invariant Rest(stream) == Rest(stream[read..])
    {
      ghost var left := stream[read..];
      var msg := stream[read];
      assert left[0] == msg && left[1..] == stream[read + 1..];
      read := read + 1;
      if msg.operation == Error {
        updater.Emit(Failed(Detail(msg)));
        return;
      }
      if msg.operation == AgentRequest && msg.feedback.Some? {
        updater.Emit(RequiresInput(msg.feedback.value));
        return;
      }
      if msg.operation == Done {
        updater.Emit(Completed);
        return;
      }
      ghost var before := updater.events;
      updater.Show(msg);
      assert before + (Shown(msg) + Streamed(stream[read..])) == updater.events + Streamed(stream[read..]);
    }
    updater.Emit(Failed(ENDED));
  }

  /** `_relay_until_pause` without cancellation. */
  method RelayUntilPause(stream: seq<AragAnswer>, broker: LocalBroker, topic: string) returns (read: nat)
    requires broker.Valid()
    modifies broker
    ensures broker.Valid()
    ensures Messages(broker.Topic(topic)) == old(Messages(broker.Topic(topic))) + Relayed(stream)
    ensures read <= |stream| && (Rest(stream).Some? ==> Rest(stream).value == stream[read..])
  {
    hide LocalBroker.Valid, LocalBroker.Topic, Shown, Detail, Messages, Relayed, Rest;
    ghost var start := Messages(broker.Topic(topic));
    ghost var said: seq<Message> := [];
    read := 0;
    while read < |stream|
      invariant read <= |stream| && broker.Valid()
      invariant Messages(broker.Topic(topic)) == start + said
      invariant said + Relayed(stream[read..]) == Relayed(stream)
      invariant Rest(stream) == Rest(stream[read..])
    {
      var msg := stream[read];
      ReadOne(stream, read);
      assert said + (Published(msg).0 + if Published(msg).1 then [] else Relayed(stream[read + 1..])) == Relayed(stream);
      read := read + 1;
      if msg.operation == Error {
        said := PublishMessage(broker, topic, AgentAnswer(msg), start, said);
        said := PublishMessage(broker, topic, AgentDone, start, said);
        return;
      }
      if msg.operation == AgentRequest && msg.feedback.Some? {
        said := PublishMessage(broker, topic, AgentAnswer(msg), start, said);
        return;
      }
      if msg.operation == Done {
        said := PublishMessage(broker, topic, AgentDone, start, said);
        return;
      }
      said := PublishMessage(broker, topic, AgentAnswer(msg), start, said);
    }
    assert stream[read..] == [];
    EndOfStream();
    said := PublishMessage(broker, topic, AgentAnswer(EndAnswer), start, said);
    said := PublishMessage(broker, topic, AgentDone, start, said);
  }

  lemma ReadOne(stream: seq<AragAnswer>, read: nat)
    requires read < |stream|
    ensures Relayed(stream[read..]) == Published(stream[read]).0 + if Published(stream[read]).1 then [] else Relayed(stream[read + 1..])
    ensures Rest(stream[read..]) == match React(stream[read])
              case Pause(_) => Some(stream[read + 1..])
              case Show(_) => Rest(stream[read + 1..])
              case _ => None
  {
    assert stream[read..][0] == stream[read] && stream[read..][1..] == stream[read + 1..];
  }

  lemma EndOfStream()
    ensures Relayed([]) == [AgentAnswer(EndAnswer), AgentDone] && Rest([]) == None
  {
  }

  /** `broker.publish` on the relay topic; the ghosts keep what the relay has said. */
  method PublishMessage(broker: LocalBroker, topic: string, message: Message, ghost start: seq<Message>,
                        ghost said: seq<Message>) returns (ghost all: seq<Message>)
    requires broker.Valid() && Messages(broker.Topic(topic)) == start + said
    modifies broker
    ensures broker.Valid() && Messages(broker.Topic(topic)) == start + all
    ensures all == said + [message]
  {
    hide LocalBroker.Valid, LocalBroker.Topic;
    broker.Publish(topic, message);
    ghost var log := broker.Topic(topic);
    assert log[..|log| - 1] == old(broker.Topic(topic));
    all := said + [message];
  }

  /** The loop of `_forward_feedback` over a batch of its subscription; `returned` when
      the request is over, otherwise it goes on after `cursor`. */
  method ForwardBatch(batch: Log, cursor: nat, updater: TaskUpdater) returns (last: nat, returned: bool)
    modifies updater
    ensures updater.events == old(updater.events) + Forward(Messages(batch)).0 && returned == Forward(Messages(batch)).1
    ensures !returned ==> last == if batch == [] then cursor else batch[|batch| - 1].cursor
  {
    hide Shown, Detail, Forward, Messages;
    last, returned := cursor, false;
    assert Messages(batch)[0..] == Messages(batch) && Messages(batch)[|batch|..] == [];
    ForwardNothing();
    var i := 0;
    while i < |batch|
      invariant i <= |batch| && !returned
      invariant updater.events + Forward(Messages(batch)[i..]).0 == old(updater.events) + Forward(Messages(batch)).0
      invariant Forward(Messages(batch)[i..]).1 == Forward(Messages(batch)).1
      invariant last == if i == 0 then cursor else batch[i - 1].cursor
    {
      ForwardOneMore(Messages(batch), i);
      ghost var before := updater.events;
      var message := batch[i].message;
      last := batch[i].cursor;
      i := i + 1;
      match message {
        case AgentAnswer(answer) =>
          if answer.operation == Error {
            updater.Emit(Failed(Detail(answer)));
            returned := true;
            return;
          }
          if answer.operation == AgentRequest && answer.feedback.Some? {
            updater.Emit(RequiresInput(answer.feedback.value));
            returned := true;
            return;
          }
          updater.Show(answer);
        case AgentDone =>
          updater.Emit(Completed);
          returned := true;
          return;
        case AgentPing =>
      }
      assert before + (Forwarded(message).0 + Forward(Messages(batch)[i..]).0) == updater.events + Forward(Messages(batch)[i..]).0;
    }
  }

  lemma ForwardOneMore(messages: seq<Message>, i: nat)
    requires i < |messages|
    ensures Forward(messages[i..]) ==
            if Forwarded(messages[i]).1 then Forwarded(messages[i])
            else (Forwarded(messages[i]).0 + Forward(messages[i + 1..]).0, Forward(messages[i + 1..]).1)
  {
    assert messages[i..][0] == messages[i] && messages[i..][1..] == messages[i + 1..];
  }

  lemma ForwardNothing()
    ensures Forward([]) == ([], false)
  {
  }
}
