/** The chat panel: a message log that starts with a bot greeting and only
    ever grows, an input field, and a loading flag. Sending is split into
    the two halves the asynchronous handler has: `Begin` (the guard, the
    optimistic user message and the query it sends) and `Settle` (the one
    closing bot message, answer or error, and the loading flag cleared). */
module ChatInterface {
  import opened Wrappers
  import opened Text

  datatype Role = User | Bot

  datatype Message = Message(id: string, role: Role, content: string, timestamp: string)

  datatype Chat = Chat(messages: seq<Message>, input: string, isLoading: bool)

  /** A reading of the browser clock: `Date.now()` and the text
      `new Date().toLocaleTimeString()` shows. */
  datatype Clock = Clock(now: nat, time: string)

  /** The request body `{ query }` sent to the organization's query route. */
  datatype Query = Query(organizationId: string, query: string)

  /** How the request ended: a response with an ok status and its
      `response` field, a response with another status and its optional
      `error` field, or an exception with its message. */
  datatype Outcome = Ok(response: string) | NotOk(error: Option<string>) | Thrown(message: string)

  const Greeting := "Hello! I'm here to help. How can I assist you today?"
  const ErrorPrefix := "Sorry, I encountered an error: "
  const DefaultError := "Failed to get response"

  /** The panel as it mounts: the greeting alone, an empty input, not
      loading. Only the greeting's timestamp comes from the clock. */
  function Init(time: string): (c: Chat)
    ensures |c.messages| == 1 && c.messages[0].role == Bot && c.messages[0].content == Greeting
    ensures c.input == "" && !c.isLoading
  {
    Chat([Message("1", Bot, Greeting, time)], "", false)
  }

  /** Typing: only the input changes. */
  function Type(c: Chat, text: string): (r: Chat)
    ensures r.input == text && r.messages == c.messages && r.isLoading == c.isLoading
  {
    c.(input := text)
  }

  /** The guard of the send handler: a non-blank input, a present and
      non-empty organization id, and no request in flight. */
  predicate CanSend(c: Chat, organizationId: Option<string>) {
    !Blank(c.input) && organizationId.Some? && organizationId.value != "" && !c.isLoading
  }

  /** The first half of a send. Refused: nothing changes and no query goes
      out. Accepted: exactly one user message carrying the untrimmed input is
      appended, the input is cleared, the loading flag is set, and the query
      carries the input as it was before the field was cleared. */
  function Begin(c: Chat, organizationId: Option<string>, clock: Clock): (r: (Chat, Option<Query>))
    ensures !CanSend(c, organizationId) ==> r == (c, None)
    ensures CanSend(c, organizationId) ==>
              && |r.0.messages| == |c.messages| + 1
              && r.0.messages[..|c.messages|] == c.messages
              && r.0.messages[|c.messages|].role == User
              && r.0.messages[|c.messages|].content == c.input
              && r.0.input == "" && r.0.isLoading
              && r.1 == Some(Query(organizationId.value, c.input))
  {
    if !CanSend(c, organizationId) then (c, None)
    else
      var userMessage := Message(DecimalString(clock.now), User, c.input, clock.time);
      (Chat(c.messages + [userMessage], "", true), Some(Query(organizationId.value, c.input)))
  }

  /** The text of the closing bot message: the answer on an ok status, and
      otherwise the prefixed failure reason, where a non-ok response without
      a (non-empty) `error` field reads "Failed to get response". */
  function ReplyText(o: Outcome): (t: string)
    ensures o.Ok? ==> t == o.response
    ensures o.Thrown? ==> t == ErrorPrefix + o.message
    ensures o.NotOk? && o.error.Some? && o.error.value != "" ==> t == ErrorPrefix + o.error.value
    ensures o.NotOk? && (o.error.None? || o.error.value == "") ==> t == ErrorPrefix + DefaultError
  {
    match o
    case Ok(response) => response
    case NotOk(error) =>
      var reason := if error.Some? && error.value != "" then error.value else DefaultError;
      ErrorPrefix + reason
    case Thrown(message) => ErrorPrefix + message
  }

  /** The second half of a send: exactly one bot message is appended after
      the existing ones, whichever way the request ended, and the loading
      flag is cleared. The input is left as the user has it. */
  function Settle(c: Chat, o: Outcome, clock: Clock): (r: Chat)
    ensures |r.messages| == |c.messages| + 1
    ensures r.messages[..|c.messages|] == c.messages
    ensures r.messages[|c.messages|].role == Bot
    ensures r.messages[|c.messages|].content == ReplyText(o)
    ensures r.input == c.input && !r.isLoading
  {
    var botMessage := Message(DecimalString(clock.now + 1), Bot, ReplyText(o), clock.time);
    c.(messages := c.messages + [botMessage], isLoading := false)
  }

  /** A whole send, awaited before anything else happens. */
  function Send(c: Chat, organizationId: Option<string>, o: Outcome, sent: Clock, settled: Clock): Chat {
    var (begun, query) := Begin(c, organizationId, sent);
    if query.Some? then Settle(begun, o, settled) else begun
  }

  /** Whose turn position `i` of the log is, after the greeting at 0. */
  function TurnRole(i: nat): Role {
    if i % 2 == 1 then User else Bot
  }

  /** The log's shape: the greeting first, then user and bot messages
      alternating, with an odd length exactly when no request is in flight. */
  predicate Alternates(c: Chat) {
    && |c.messages| >= 1
    && c.messages[0].role == Bot && c.messages[0].content == Greeting
    && (forall i :: 1 <= i < |c.messages| ==> c.messages[i].role == TurnRole(i))
    && (c.isLoading <==> |c.messages| % 2 == 0)
  }

  lemma InitAlternates(time: string)
    ensures Alternates(Init(time))
  {
  }

  /** Appending the message whose turn it is flips the loading flag and
      keeps the alternation. */
  lemma AppendTurnKeepsAlternation(c: Chat, m: Message, input: string)
    requires Alternates(c) && m.role == TurnRole(|c.messages|)
    ensures Alternates(Chat(c.messages + [m], input, !c.isLoading))
  {
    var n := |c.messages|;
    var r := Chat(c.messages + [m], input, !c.isLoading);
    forall i | 1 <= i < |r.messages|
      ensures r.messages[i].role == TurnRole(i)
    {
      if i < n {
        assert r.messages[i] == c.messages[i];
      }
    }
  }

  /** An accepted begin adds the user turn and opens a request. */
  lemma BeginKeepsAlternation(c: Chat, organizationId: Option<string>, clock: Clock)
    requires Alternates(c)
    ensures Alternates(Begin(c, organizationId, clock).0)
  {
    if CanSend(c, organizationId) {
      var m := Message(DecimalString(clock.now), User, c.input, clock.time);
      assert Begin(c, organizationId, clock).0 == Chat(c.messages + [m], "", true);
      AppendTurnKeepsAlternation(c, m, "");
    }
  }

  /** Settling the open request adds the bot turn and closes it. */
  lemma SettleKeepsAlternation(c: Chat, o: Outcome, clock: Clock)
    requires Alternates(c) && c.isLoading
    ensures Alternates(Settle(c, o, clock))
  {
    var m := Message(DecimalString(clock.now + 1), Bot, ReplyText(o), clock.time);
    assert Settle(c, o, clock) == Chat(c.messages + [m], c.input, false);
    AppendTurnKeepsAlternation(c, m, c.input);
  }

  /** Each completed send adds either nothing (refused) or exactly two
      messages, the user's and then the bot's, and never leaves a request
      open. */
  lemma SendAddsOneExchange(c: Chat, organizationId: Option<string>, o: Outcome, sent: Clock, settled: Clock)
    requires Alternates(c) && !c.isLoading
    ensures var r := Send(c, organizationId, o, sent, settled);
            && Alternates(r) && !r.isLoading
            && (!CanSend(c, organizationId) ==> r == c)
            && (CanSend(c, organizationId) ==>
                  && |r.messages| == |c.messages| + 2
                  && r.messages[..|c.messages|] == c.messages
                  && r.messages[|c.messages|].content == c.input
                  && r.messages[|c.messages| + 1].content == ReplyText(o))
  {
    var (begun, query) := Begin(c, organizationId, sent);
    if query.Some? {
      BeginKeepsAlternation(c, organizationId, sent);
      SettleKeepsAlternation(begun, o, settled);
      assert Settle(begun, o, settled).messages[..|c.messages|] == begun.messages[..|c.messages|];
    }
  }

  /** What the user does in a conversation where each send is awaited before
      the next: type into the field, or press send (the request then ends
      with the given outcome). */
  datatype Action =
    | Typed(text: string)
    | Sent(organizationId: Option<string>, outcome: Outcome, sent: Clock, settled: Clock)

  function Converse(c: Chat, actions: seq<Action>): Chat
    decreases |actions|
  {
    if actions == [] then c
    else
      var next := match actions[0]
        case Typed(text) => Type(c, text)
        case Sent(id, o, s, t) => Send(c, id, o, s, t);
      Converse(next, actions[1..])
  }

  /** Over any such conversation the log keeps alternating, no request is
      left open, and every earlier message stays where it was. */
  lemma {:induction false} ConverseKeepsShape(c: Chat, actions: seq<Action>)
    requires Alternates(c) && !c.isLoading
    ensures var r := Converse(c, actions);
            Alternates(r) && !r.isLoading
            && |c.messages| <= |r.messages| && r.messages[..|c.messages|] == c.messages
    decreases |actions|
  {
    if actions != [] {
      var next := match actions[0]
        case Typed(text) => Type(c, text)
        case Sent(id, o, s, t) => Send(c, id, o, s, t);
      match actions[0] {
        case Typed(text) =>
        case Sent(id, o, s, t) => SendAddsOneExchange(c, id, o, s, t);
      }
      ConverseKeepsShape(next, actions[1..]);
      var r := Converse(next, actions[1..]);
      assert r.messages[..|c.messages|] == r.messages[..|next.messages|][..|c.messages|];
    }
  }

  /** Every conversation from a freshly mounted panel starts with the
      greeting and alternates from there. */
  lemma ConversationsFromInitAlternate(time: string, actions: seq<Action>)
    ensures Alternates(Converse(Init(time), actions)) && !Converse(Init(time), actions).isLoading
  {
    ConverseKeepsShape(Init(time), actions);
  }

  /** Message ids are not unique: a reply settled at millisecond t and the
      next user message sent at t + 1 get the same id. */
  lemma ReplyAndNextMessageMayShareId(c: Chat, o: Outcome, t: nat, time: string, next: string)
    requires c.isLoading && !Blank(next)
    ensures var settled := Type(Settle(c, o, Clock(t, time)), next);
            var (begun, _) := Begin(settled, Some("org"), Clock(t + 1, time));
            begun.messages[|c.messages|].id == begun.messages[|c.messages| + 1].id
  {
    var settled := Type(Settle(c, o, Clock(t, time)), next);
    assert settled.messages[|c.messages|].id == DecimalString(t + 1);
    assert CanSend(settled, Some("org"));
    var begun := Begin(settled, Some("org"), Clock(t + 1, time)).0;
    assert begun.messages == settled.messages + [Message(DecimalString(t + 1), User, next, time)];
  }

  /** Send "hello" to organization "42" and get the answer "hi": the log is
      the greeting, the user's "hello" and the bot's "hi", and nothing is
      loading. */
  lemma HelloScenario(time: string, sent: Clock, settled: Clock)
    ensures var r := Send(Type(Init(time), "hello"), Some("42"), Ok("hi"), sent, settled);
            && |r.messages| == 3
            && r.messages[0].content == Greeting
            && r.messages[1].role == User && r.messages[1].content == "hello"
            && r.messages[2].role == Bot && r.messages[2].content == "hi"
            && !r.isLoading && r.input == ""
  {
    var c := Type(Init(time), "hello");
    assert !Blank("hello") by {
      assert !IsWhitespace("hello"[0]);
    }
    assert CanSend(c, Some("42"));
  }
}
