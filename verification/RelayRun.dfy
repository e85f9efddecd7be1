/** A relay as it runs: the publisher, the broker's topic and the forwarder take
    steps in any order, and the subscription may time out and start again from its
    cursor any number of times. */
module RelayRun {
  import opened Answers
  import opened Relay

  // ---- The broker's topic ----

  datatype Entry = Entry(cursor: nat, message: Message)

  type Log = seq<Entry>

  /** Cursors come from a counter that only grows; other topics may use some. */
  predicate Ascending(log: Log) {
    && (forall i :: 0 <= i < |log| ==> log[i].cursor > 0)
    && (forall i, j :: 0 <= i < j < |log| ==> log[i].cursor < log[j].cursor)
  }

  function Messages(log: Log): (r: seq<Message>)
    ensures |r| == |log| && forall i :: 0 <= i < |log| ==> r[i] == log[i].message
  {
    if log == [] then [] else Messages(log[..|log| - 1]) + [log[|log| - 1].message]
  }

  /** `LocalBroker.subscribe`: the index reading starts from, which is just after the
      entry that has the cursor, and the beginning for "0" and for an unknown cursor. */
  function StartIndex(log: Log, cursor: nat): (i: nat)
    ensures i <= |log|
  {
    if cursor == 0 then 0 else IndexAfter(log, cursor, 0)
  }

  function IndexAfter(log: Log, cursor: nat, i: nat): (r: nat)
    requires i <= |log|
    ensures r <= |log|
    decreases |log| - i
  {
    if i == |log| then 0 else if log[i].cursor == cursor then i + 1 else IndexAfter(log, cursor, i + 1)
  }

  lemma {:induction false} IndexAfterFound(log: Log, cursor: nat, i: nat, n: nat)
    requires Ascending(log) && i <= n < |log| && log[n].cursor == cursor
    ensures IndexAfter(log, cursor, i) == n + 1
    decreases n - i
  {
    if i < n {
      IndexAfterFound(log, cursor, i + 1, n);
    }
  }

  /** The contract of `subscribe`: the log strictly after the cursor. */
  lemma StartIsStrictlyAfter(log: Log, cursor: nat)
    requires Ascending(log) && (cursor == 0 || exists n :: 0 <= n < |log| && log[n].cursor == cursor)
    ensures forall i :: 0 <= i < |log| ==> (log[i].cursor > cursor <==> i >= StartIndex(log, cursor))
  {
    if cursor != 0 {
      var n :| 0 <= n < |log| && log[n].cursor == cursor;
      IndexAfterFound(log, cursor, 0, n);
    }
  }

  // ---- States and steps ----

  datatype Phase = Listening | Returned | Broken

  datatype State = State(
    unread: seq<AragAnswer>,   // publisher: the answers the stream has not given yet
    queued: seq<Message>,      //            messages it is about to publish
    stopped: bool,             //            it reads no more
    log: Log,                  // topic
    counter: nat,              //        the broker's last cursor
    position: nat,             // subscription: how much of the log it has fetched
    batch: Log,                //               fetched but not yet yielded
    cursor: nat,               // forwarder: the last cursor yielded, 0 at first
    events: seq<Event>,        //            what its client saw
    phase: Phase)

  function Initial(stream: seq<AragAnswer>, counter: nat): State {
    State(stream, [], false, [], counter, 0, [], 0, [], Listening)
  }

  /** The publisher takes the next answer, or the end of the stream. */
  predicate Read(s: State, t: State) {
    && s.queued == [] && !s.stopped
    && t == if s.unread == [] then s.(queued := [AgentAnswer(EndAnswer), AgentDone], stopped := true)
            else s.(unread := s.unread[1..], queued := Published(s.unread[0]).0, stopped := Published(s.unread[0]).1)
  }

  /** `broker.publish`, at the next cursor the broker gives out. */
  predicate Publish(s: State, t: State) {
    && s.queued != [] && t.counter > s.counter
    && t == s.(queued := s.queued[1..], log := s.log + [Entry(t.counter, s.queued[0])], counter := t.counter)
  }

  /** `subscribe` takes everything published since it last looked. */
  predicate Fetch(s: State, t: State) {
    && s.phase == Listening && s.batch == [] && s.position < |s.log|
    && t == s.(batch := s.log[s.position..], position := |s.log|)
  }

  /** `subscribe` yields one message, and the forwarder's loop body runs on it. */
  predicate Yield(s: State, t: State) {
    && s.phase == Listening && s.batch != []
    && var (events, returned) := Forwarded(s.batch[0].message);
    && t == s.(batch := s.batch[1..], cursor := s.batch[0].cursor, events := s.events + events,
               phase := if returned then Returned else Listening)
  }

  /** `AgentTimeoutError`, then a new subscription from the last cursor. */
  predicate Resubscribe(s: State, t: State) {
    && s.phase == Listening && s.batch == []
    && t == s.(position := StartIndex(s.log, s.cursor))
  }

  /** The task's time is up, or the broker fails. */
  predicate Break(s: State, t: State) {
    && s.phase == Listening
    && t == s.(events := s.events + [Failed(INTERRUPTED)], phase := Broken)
  }

  predicate Step(s: State, t: State) {
    Read(s, t) || Publish(s, t) || Fetch(s, t) || Yield(s, t) || Resubscribe(s, t) || Break(s, t)
  }

  ghost predicate IsRun(run: seq<State>, stream: seq<AragAnswer>) {
    && run != [] && (exists counter: nat :: run[0] == Initial(stream, counter))
    && forall i {:trigger run[i]} :: 0 < i < |run| ==> Step(run[i - 1], run[i])
  }

  // ---- The invariant ----

  /** How many of the topic's messages the forwarder has seen. */
  function Seen(s: State): int { s.position - |s.batch| }

  predicate TopicOk(s: State) {
    && Ascending(s.log) && (s.log != [] ==> s.log[|s.log| - 1].cursor <= s.counter)
  }

  predicate SubscriptionOk(s: State) {
    && 0 <= Seen(s) <= s.position <= |s.log|
    && s.batch == s.log[Seen(s)..s.position]
    && s.cursor == if Seen(s) == 0 then 0 else s.log[Seen(s) - 1].cursor
  }

  function ToCome(s: State): seq<Message> { s.queued + if s.stopped then [] else Relayed(s.unread) }

  /** What was published and what is still to publish make up the whole relay. */
  predicate PublisherOk(s: State, stream: seq<AragAnswer>) {
    Messages(s.log) + ToCome(s) == Relayed(stream)
  }

  predicate ForwarderOk(s: State)
    requires 0 <= Seen(s) <= |s.log|
  {
    var (events, returned) := Forward(Messages(s.log)[..Seen(s)]);
    match s.phase
    case Listening => s.events == events && !returned
    case Returned => s.events == events && returned
    case Broken => s.events == events + [Failed(INTERRUPTED)] && !returned
  }

  predicate Inv(s: State, stream: seq<AragAnswer>) {
    TopicOk(s) && SubscriptionOk(s) && PublisherOk(s, stream) && ForwarderOk(s)
  }

  lemma InitialInv(stream: seq<AragAnswer>, counter: nat)
    ensures Inv(Initial(stream, counter), stream)
  {
    assert [] + ([] + Relayed(stream)) == Relayed(stream);
  }

  lemma ReadInv(s: State, t: State, stream: seq<AragAnswer>)
    requires Inv(s, stream) && Read(s, t)
    ensures Inv(t, stream)
  {
    hide Messages, Forward, Ascending, ToCome;
    ReadKeepsToCome(s, t);
  }

  lemma ReadKeepsToCome(s: State, t: State)
    requires Read(s, t)
    ensures ToCome(t) == ToCome(s)
  {
    hide React;
  }

  lemma PublishInv(s: State, t: State, stream: seq<AragAnswer>)
    requires Inv(s, stream) && Publish(s, t)
    ensures Inv(t, stream)
  {
    hide PublisherOk, ForwarderOk, Messages;
    PublishedIsWhole(s, t, stream);
    PublishedIsUnseen(s, t);
  }

  lemma PublishedIsWhole(s: State, t: State, stream: seq<AragAnswer>)
    requires PublisherOk(s, stream) && Publish(s, t)
    ensures PublisherOk(t, stream)
  {
    hide Relayed;
    assert t.log[..|t.log| - 1] == s.log;
    assert ToCome(s) == [s.queued[0]] + ToCome(t);
  }

  lemma PublishedIsUnseen(s: State, t: State)
    requires 0 <= Seen(s) <= |s.log| && ForwarderOk(s) && Publish(s, t)
    ensures ForwarderOk(t)
  {
    hide Forward;
    assert t.log[..|t.log| - 1] == s.log;
    assert Messages(t.log)[..Seen(t)] == Messages(s.log)[..Seen(s)];
  }

  lemma FetchInv(s: State, t: State, stream: seq<AragAnswer>)
    requires Inv(s, stream) && Fetch(s, t)
    ensures Inv(t, stream)
  {
    hide Forward, Relayed;
    assert Seen(t) == Seen(s);
  }

  lemma YieldInv(s: State, t: State, stream: seq<AragAnswer>)
    requires Inv(s, stream) && Yield(s, t)
    ensures Inv(t, stream)
  {
    hide Relayed, Messages, Forwarded;
    var m := s.batch[0].message;
    var before := Messages(s.log)[..Seen(s)];
    assert Seen(t) == Seen(s) + 1;
    assert Messages(s.log)[..Seen(t)] == before + [m];
    ForwardConcat(before, [m]);
    ForwardOne(m);
  }

  lemma ForwardOne(m: Message)
    ensures Forward([m]) == Forwarded(m)
  {
    assert [m][1..] == [];
    assert Forward([m]).0 == Forwarded(m).0;
  }

  lemma ResubscribeInv(s: State, t: State, stream: seq<AragAnswer>)
    requires Inv(s, stream) && Resubscribe(s, t)
    ensures Inv(t, stream)
  {
    hide Relayed, Messages, Forward;
    if Seen(s) > 0 {
      IndexAfterFound(s.log, s.cursor, 0, Seen(s) - 1);
    }
  }

  lemma BreakInv(s: State, t: State, stream: seq<AragAnswer>)
    requires Inv(s, stream) && Break(s, t)
    ensures Inv(t, stream)
  {
    hide Relayed, Messages, Forward;
  }

  lemma StepInv(s: State, t: State, stream: seq<AragAnswer>)
    requires Inv(s, stream) && Step(s, t)
    ensures Inv(t, stream)
  {
    hide Inv, Read, Publish, Fetch, Yield, Resubscribe, Break;
    if Read(s, t) { ReadInv(s, t, stream); }
    if Publish(s, t) { PublishInv(s, t, stream); }
    if Fetch(s, t) { FetchInv(s, t, stream); }
    if Yield(s, t) { YieldInv(s, t, stream); }
    if Resubscribe(s, t) { ResubscribeInv(s, t, stream); }
    if Break(s, t) { BreakInv(s, t, stream); }
  }

  lemma {:induction false} RunInv(run: seq<State>, stream: seq<AragAnswer>)
    requires IsRun(run, stream)
    ensures Inv(run[|run| - 1], stream)
    decreases |run|
  {
    hide Inv, Step;
    if |run| == 1 {
      var counter :| run[0] == Initial(stream, counter);
      InitialInv(stream, counter);
    } else {
      RunInv(run[..|run| - 1], stream);
      StepInv(run[|run| - 2], run[|run| - 1], stream);
    }
  }

  // ---- The theorems ----

  /** At every moment of every run the client has seen a prefix of what the owner's own
      client would have seen, all of it once the forwarder returns, and a broken relay
      adds exactly the interruption. */
  lemma ForwarderSeesTheStream(run: seq<State>, stream: seq<AragAnswer>)
    requires IsRun(run, stream)
    ensures var s := run[|run| - 1];
            match s.phase
            case Listening => s.events <= Streamed(stream)
            case Returned => s.events == Streamed(stream)
            case Broken => exists seen: seq<Event> :: seen <= Streamed(stream) && s.events == seen + [Failed(INTERRUPTED)]
  {
    var s := run[|run| - 1];
    RunInv(run, stream);
    SeenIsPrefix(s, stream);
  }

  lemma SeenIsPrefix(s: State, stream: seq<AragAnswer>)
    requires Inv(s, stream)
    ensures var (events, returned) := Forward(Messages(s.log)[..Seen(s)]);
            events <= Streamed(stream) && (returned ==> events == Streamed(stream))
  {
    hide Messages, Forward;
    var seen := Messages(s.log)[..Seen(s)];
    var rest := Messages(s.log)[Seen(s)..] + ToCome(s);
    assert Relayed(stream) == seen + rest by {
      hide ToCome, TopicOk, SubscriptionOk, ForwarderOk, Relayed;
    }
    ForwardConcat(seen, rest);
    RelayKeepsEvents(stream);
  }

  /** A forwarder that is still listening is never stuck: one of the four steps that are
      not failures can be taken, until it returns. */
  lemma ListenerIsNotStuck(s: State, stream: seq<AragAnswer>)
    requires Inv(s, stream) && s.phase == Listening
    ensures exists t :: (Read(s, t) || Publish(s, t) || Fetch(s, t) || Yield(s, t)) && Work(t) < Work(s)
  {
    hide Messages, Forward, Relayed, React, Forwarded, PublisherOk, ForwarderOk;
    var t :=
      if s.queued != [] then
        s.(queued := s.queued[1..], log := s.log + [Entry(s.counter + 1, s.queued[0])], counter := s.counter + 1)
      else if !s.stopped then
        if s.unread == [] then s.(queued := [AgentAnswer(EndAnswer), AgentDone], stopped := true)
        else s.(unread := s.unread[1..], queued := Published(s.unread[0]).0, stopped := Published(s.unread[0]).1)
      else if s.batch != [] then
        var (events, returned) := Forwarded(s.batch[0].message);
        s.(batch := s.batch[1..], cursor := s.batch[0].cursor, events := s.events + events,
           phase := if returned then Returned else Listening)
      else s.(batch := s.log[s.position..], position := |s.log|);
    if s.queued == [] && s.stopped && s.batch == [] { EverythingSeen(s, stream); }
    WorkShrinks(s, t, stream);
  }

  /** A stopped publisher's whole log makes the forwarder return. */
  lemma EverythingSeen(s: State, stream: seq<AragAnswer>)
    requires Inv(s, stream) && s.phase == Listening && s.queued == [] && s.stopped && s.batch == []
    ensures s.position < |s.log|
  {
    hide Messages, Forward;
    RelayKeepsEvents(stream);
    var messages := Messages(s.log);
    assert messages == Relayed(stream) by {
      hide TopicOk, SubscriptionOk, ForwarderOk, Relayed;
      assert messages + ([] + []) == messages;
    }
    assert messages[..|messages|] == messages;
  }

  /** Work left before the forwarder returns, counting a fetch and a yield per message. */
  function Work(s: State): nat {
    9 * |s.unread| + (if s.stopped then 0 else 9) + 4 * |s.queued|
    + (if Seen(s) <= |s.log| then 2 * (|s.log| - Seen(s)) else 0)
    + (if |s.batch| == 0 && s.position < |s.log| then 1 else 0)
  }

  /** Every step but a failure leaves less work, so between failures a relay ends. */
  lemma WorkShrinks(s: State, t: State, stream: seq<AragAnswer>)
    requires Inv(s, stream) && (Read(s, t) || Publish(s, t) || Fetch(s, t) || Yield(s, t))
    ensures Work(t) < Work(s)
  {
    hide Messages, Forward, Relayed, React, Forwarded;
  }
}
