/**
 * The floating chat panel `ChatBot` (frontend/App.tsx): an append-only message log that
 * starts with a greeting, a text input and a loading flag. `handleSend` awaits the advisory
 * service between its two halves, so it is modelled as `BeginSend`, which records the user
 * message and issues the call, and `ReceiveReply`, which records the answer.
 */
module Chat {
  import opened Wrappers
  import opened JsText
  import opened Requests

  datatype Role = FromUser | FromBot
  datatype Message = Message(role: Role, text: string)

  const Greeting := Message(FromBot,
    "Hello! I am your AI farming assistant. Ask me anything about crops, weather, or prices.")

  datatype ChatState = ChatState(messages: seq<Message>, input: string, loading: bool)

  const InitialChat := ChatState([Greeting], "", false)

  /** The input's `onChange`: only the input changes. */
  function Typed(st: ChatState, text: string): (r: ChatState)
    ensures r.input == text && r.messages == st.messages && r.loading == st.loading
  {
    st.(input := text)
  }

  /** First half of `handleSend`: ignore blank input, otherwise clear the input, append the
      user's message and start loading. */
  function Send(st: ChatState): (r: ChatState)
    ensures AllWhitespace(st.input) ==> r == st
    ensures !AllWhitespace(st.input) ==>
      |r.messages| == |st.messages| + 1 && r.messages[..|st.messages|] == st.messages &&
      r.messages[|st.messages|] == Message(FromUser, st.input) && r.input == "" && r.loading
  {
    BlankIffAllWhitespace(st.input);
    if Blank(st.input) then st
    else ChatState(st.messages + [Message(FromUser, st.input)], "", true)
  }

  /** Second half of `handleSend`, when the service answers. */
  function Reply(st: ChatState, response: string): (r: ChatState)
    ensures |r.messages| == |st.messages| + 1 && r.messages[..|st.messages|] == st.messages
    ensures r.messages[|st.messages|] == Message(FromBot, response)
    ensures r.input == st.input && !r.loading
  {
    st.(loading := false, messages := st.messages + [Message(FromBot, response)])
  }

  /** `handleSend` when no other event happens while the call is pending. */
  function Exchange(st: ChatState, response: string): (r: ChatState)
    ensures AllWhitespace(st.input) ==> r == st
    ensures !AllWhitespace(st.input) ==>
      r == ChatState(st.messages + [Message(FromUser, st.input), Message(FromBot, response)], "", false)
  {
    BlankIffAllWhitespace(st.input);
    if Blank(st.input) then st else Reply(Send(st), response)
  }

  /** One turn of conversation: what the user typed before pressing send, and the reply. */
  datatype Turn = Turn(typed: string, reply: string)

  /** The messages one turn adds: none when the typed text is blank. */
  function TurnMessages(t: Turn): seq<Message> {
    if AllWhitespace(t.typed) then [] else [Message(FromUser, t.typed), Message(FromBot, t.reply)]
  }

  /** Typing the turn's text and sending it. */
  function TakeTurn(st: ChatState, t: Turn): ChatState {
    Exchange(Typed(st, t.typed), t.reply)
  }

  /** Typing and sending each turn in order. */
  function Converse(st: ChatState, turns: seq<Turn>): ChatState
    decreases |turns|
  {
    if turns == [] then st else Converse(TakeTurn(st, turns[0]), turns[1..])
  }

  /** The messages a sequence of turns adds. */
  function Transcript(turns: seq<Turn>): seq<Message>
    decreases |turns|
  {
    if turns == [] then [] else TurnMessages(turns[0]) + Transcript(turns[1..])
  }

  /** A turn appends its messages, even one taken while an earlier reply is pending; loading
      is left on only by a blank turn taken while loading. */
  lemma TakeTurnEffect(st: ChatState, t: Turn)
    ensures TakeTurn(st, t).messages == st.messages + TurnMessages(t)
    ensures TakeTurn(st, t).loading == (st.loading && TurnMessages(t) == [])
  {
    var typed := Typed(st, t.typed);
    if AllWhitespace(t.typed) {
      assert TakeTurn(st, t) == typed;
      assert st.messages + [] == st.messages;
    } else {
      assert TakeTurn(st, t).messages ==
        st.messages + [Message(FromUser, t.typed), Message(FromBot, t.reply)];
    }
  }

  lemma AppendAssoc(a: seq<Message>, b: seq<Message>, c: seq<Message>)
    ensures a + (b + c) == (a + b) + c
    ensures b + c == [] <==> b == [] && c == []
  {
  }

  /** The log after a conversation, from any state, is the earlier log followed by every
      non-blank question and its reply, in the order they were sent; loading is still on only
      if it was on and no turn was sent. */
  lemma {:induction false} ConverseAppends(st: ChatState, turns: seq<Turn>)
    ensures Converse(st, turns).messages == st.messages + Transcript(turns)
    ensures Converse(st, turns).loading == (st.loading && Transcript(turns) == [])
    decreases |turns|
  {
    if turns != [] {
      var next := TakeTurn(st, turns[0]);
      TakeTurnEffect(st, turns[0]);
      ConverseAppends(next, turns[1..]);
      AppendAssoc(st.messages, TurnMessages(turns[0]), Transcript(turns[1..]));
    }
  }

  /** A log that starts with the greeting, then alternates user and bot messages, and whose
      user messages are never blank. */
  predicate WellFormedLog(msgs: seq<Message>) {
    |msgs| % 2 == 1 && msgs[0] == Greeting &&
    (forall i :: 0 <= i < |msgs| ==> (msgs[i].role == FromBot <==> i % 2 == 0)) &&
    (forall i :: 0 <= i < |msgs| && msgs[i].role == FromUser ==> !AllWhitespace(msgs[i].text))
  }

  /** Adding a non-blank question and its answer to a well-formed log keeps it well formed. */
  lemma QuestionAnswerKeepsLog(m: seq<Message>, question: string, answer: string)
    requires WellFormedLog(m) && !AllWhitespace(question)
    ensures WellFormedLog(m + [Message(FromUser, question), Message(FromBot, answer)])
  {
    var n := m + [Message(FromUser, question), Message(FromBot, answer)];
    forall i | 0 <= i < |n|
      ensures (n[i].role == FromBot <==> i % 2 == 0)
      ensures n[i].role == FromUser ==> !AllWhitespace(n[i].text)
    {
      if i < |m| {
        assert n[i] == m[i];
      }
    }
  }

  /** Sending without interleaving keeps the log well formed. */
  lemma ExchangeKeepsLog(st: ChatState, response: string)
    requires WellFormedLog(st.messages)
    ensures WellFormedLog(Exchange(st, response).messages)
  {
    if !AllWhitespace(st.input) {
      QuestionAnswerKeepsLog(st.messages, st.input, response);
    }
  }

  /** The panel starts with a well-formed log: the greeting alone. */
  lemma InitialLogWellFormed()
    ensures WellFormedLog(InitialChat.messages)
  {
  }

  /** Any conversation from a well-formed log, such as the initial one, keeps it well formed:
      the greeting stays first, bot and user messages alternate, and no user message is blank. */
  lemma {:induction false} ConversationLog(st: ChatState, turns: seq<Turn>)
    requires WellFormedLog(st.messages)
    ensures WellFormedLog(Converse(st, turns).messages)
    decreases |turns|
  {
    if turns != [] {
      ExchangeKeepsLog(Typed(st, turns[0].typed), turns[0].reply);
      ConversationLog(TakeTurn(st, turns[0]), turns[1..]);
    }
  }

  /** A log one longer than `m` that keeps `m` and ends with `msg` is `m + [msg]`. */
  lemma AppendOne(m: seq<Message>, n: seq<Message>, msg: Message)
    requires |n| == |m| + 1 && n[..|m|] == m && n[|m|] == msg
    ensures n == m + [msg]
  {
    assert n == n[..|m|] + [n[|m|]];
  }

  /** The Enter key calls `handleSend` even while a reply is pending (only the button is
      disabled then). Two sends before their replies put two user messages side by side, and
      the first reply clears the loading flag while the second call is still pending. */
  lemma InterleavedSends(a: string, b: string, x: string, y: string)
    requires !AllWhitespace(a) && !AllWhitespace(b)
    ensures var sent := Send(Typed(Send(Typed(InitialChat, a)), b));
      sent.messages == [Greeting, Message(FromUser, a), Message(FromUser, b)] &&
      !Reply(sent, x).loading &&
      Reply(Reply(sent, x), y).messages ==
        [Greeting, Message(FromUser, a), Message(FromUser, b), Message(FromBot, x), Message(FromBot, y)] &&
      !WellFormedLog(Reply(Reply(sent, x), y).messages)
  {
    var one := Send(Typed(InitialChat, a));
    AppendOne([Greeting], one.messages, Message(FromUser, a));
    var sent := Send(Typed(one, b));
    AppendOne(one.messages, sent.messages, Message(FromUser, b));
    var first := Reply(sent, x);
    assert first.messages == sent.messages + [Message(FromBot, x)];
    var log := Reply(first, y).messages;
    assert log == first.messages + [Message(FromBot, y)];
    assert log[2].role == FromUser;
  }

  /** The live state of one `ChatBot` instance; `userLang` is its prop. */
  class ChatBot {
    var messages: seq<Message>
    var input: string
    var loading: bool
    const userLang: string

    function State(): ChatState
      reads this
    {
      ChatState(messages, input, loading)
    }

    constructor (userLang: string)
      ensures State() == InitialChat && this.userLang == userLang
      ensures messages == [Greeting] && input == "" && !loading
    {
      this.userLang := userLang;
      messages := [Greeting];
      input := "";
      loading := false;
    }

    method SetInput(text: string)
      modifies this
      ensures input == text && messages == old(messages) && loading == old(loading)
      ensures State() == Typed(old(State()), text)
    {
      input := text;
    }

    /** Returns the advisory call issued, or `None` when the input is blank. */
    method BeginSend() returns (call: Option<AdvisoryCall>)
      modifies this
      ensures State() == Send(old(State()))
      ensures call == if Blank(old(input)) then None else Some(AdvisoryCall(old(input), userLang))
    {
      if Trim(input) == [] {
        return None;
      }
      var userMsg := input;
      input := "";
      messages := messages + [Message(FromUser, userMsg)];
      loading := true;
      call := Some(AdvisoryCall(userMsg, userLang));
    }

    method ReceiveReply(response: string)
      modifies this
      ensures messages == old(messages) + [Message(FromBot, response)]
      ensures input == old(input) && !loading
      ensures State() == Reply(old(State()), response)
    {
      loading := false;
      messages := messages + [Message(FromBot, response)];
    }

    /** `handleSend` run to completion with `response` as the service's answer. */
    method HandleSend(response: string) returns (call: Option<AdvisoryCall>)
      modifies this
      ensures State() == Exchange(old(State()), response)
      ensures call == if Blank(old(input)) then None else Some(AdvisoryCall(old(input), userLang))
    {
      call := BeginSend();
      if call.Some? {
        ReceiveReply(response);
      }
    }
  }
}
