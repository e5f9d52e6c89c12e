/** frontend/components/ai-chatbot.tsx: the chat widget's message list and
    `handleSendMessage`. The clock (`Date.now()`) and the outcome of the
    `fetch` to the chat endpoint are parameters. */
module AiChatbot {
  import Text
  import Seqs
  import ChatRoute

  datatype Sender = User | Bot

  /** `timestamp` is the clock reading, in milliseconds, when the message was made. */
  datatype Message = Message(id: string, text: string, sender: Sender, timestamp: int)

  /** What the request comes back with: the `fetch` rejects; the response is not
      ok; it is ok without a body; or it streams decoded chunks, possibly
      failing after the last one. */
  datatype ChatReply =
    | RequestFailed
    | NotOk
    | NoBody
    | Streams(chunks: seq<string>, failsAfter: bool)

  const Greeting: string :=
    "Hello! I'm your factory maintenance assistant. I can help you with equipment troubleshooting, "
    + "maintenance schedules, error diagnostics, and more. How can I assist you today?"
  const ErrorText: string := "Sorry, I encountered an error. Please try again."
  const GreetingId: string := "1"

  /** The payload `map`: sender "user" becomes role "user", anything else "assistant". */
  function ToChatMessage(m: Message): (c: ChatRoute.ChatMessage)
    ensures c.role == ChatRoute.UserRole <==> m.sender == User
    ensures c.role == ChatRoute.AssistantRole <==> m.sender != User
    ensures c.content == m.text
  {
    ChatRoute.ChatMessage(if m.sender == User then ChatRoute.UserRole else ChatRoute.AssistantRole, m.text)
  }

  function ToPayload(ms: seq<Message>): (p: seq<ChatRoute.ChatMessage>)
    ensures |p| == |ms|
    ensures forall i :: 0 <= i < |ms| ==> p[i] == ToChatMessage(ms[i])
  {
    Seqs.Map(ms, (m: Message) => ToChatMessage(m))
  }

  /** The text of every message with id `id` becomes `text`; nothing else changes. */
  function UpdateText(ms: seq<Message>, id: string, text: string): (r: seq<Message>)
    ensures |r| == |ms|
    ensures forall i :: 0 <= i < |ms| ==> r[i] == if ms[i].id == id then ms[i].(text := text) else ms[i]
  {
    if ms == [] then []
    else
      var last := ms[|ms| - 1];
      UpdateText(ms[..|ms| - 1], id, text) + [if last.id == id then last.(text := text) else last]
  }

  /** A later update overwrites an earlier one. */
  lemma UpdateTextOverwrites(ms: seq<Message>, id: string, a: string, b: string)
    ensures UpdateText(UpdateText(ms, id, a), id, b) == UpdateText(ms, id, b)
  {
  }

  /** When no earlier message has the bot message's id, an update touches only that message. */
  lemma UpdateOnlyTheBotMessage(prior: seq<Message>, bot: Message, text: string)
    requires forall i :: 0 <= i < |prior| ==> prior[i].id != bot.id
    ensures UpdateText(prior + [bot], bot.id, text) == prior + [bot.(text := text)]
  {
  }

  /** All the chunks read so far, joined. */
  function Concat(chunks: seq<string>): (s: string)
    ensures chunks == [] ==> s == ""
  {
    if chunks == [] then "" else Concat(chunks[..|chunks| - 1]) + chunks[|chunks| - 1]
  }

  /** What the list looks like after the stream: the bot message's text is every chunk joined. */
  function AfterStream(base: seq<Message>, id: string, chunks: seq<string>): seq<Message>
  {
    if chunks == [] then base else UpdateText(base, id, Concat(chunks))
  }

  /** The bot's placeholder message: id and time from the clock after the response. */
  function BotMessage(replyAt: nat): Message
  {
    Message(Text.NatToDecimal(replyAt + 1), "", Bot, replyAt)
  }

  /** The apology appended in `catch`, with its own clock reading. */
  function ErrorMessage(errorAt: nat): Message
  {
    Message(Text.NatToDecimal(errorAt + 1), ErrorText, Bot, errorAt)
  }

  /** The list after a send, from the list with the user's message appended. */
  function AfterSend(withUser: seq<Message>, reply: ChatReply, replyAt: nat, errorAt: nat): seq<Message>
  {
    match reply
    case RequestFailed => withUser + [ErrorMessage(errorAt)]
    case NotOk => withUser + [ErrorMessage(errorAt)]
    case NoBody => withUser + [BotMessage(replyAt)]
    case Streams(chunks, fails) =>
      AfterStream(withUser + [BotMessage(replyAt)], BotMessage(replyAt).id, chunks)
      + (if fails then [ErrorMessage(errorAt)] else [])
  }

  /** A request that fails, or is not ok, appends exactly one apology and changes nothing else. */
  lemma FailureAppendsOneError(withUser: seq<Message>, reply: ChatReply, replyAt: nat, errorAt: nat)
    requires reply.RequestFailed? || reply.NotOk?
    ensures var r := AfterSend(withUser, reply, replyAt, errorAt);
      |r| == |withUser| + 1 && r[..|withUser|] == withUser &&
      r[|withUser|].sender == Bot && r[|withUser|].text == ErrorText
  {
    var r := AfterSend(withUser, reply, replyAt, errorAt);
    assert r == withUser + [ErrorMessage(errorAt)];
  }

  /** A stream leaves the earlier messages alone (when none shares the bot's id)
      and leaves the bot message holding every chunk joined; a stream that
      breaks also gets the apology after it. */
  lemma StreamFillsBotMessage(withUser: seq<Message>, chunks: seq<string>, fails: bool, replyAt: nat, errorAt: nat)
    requires forall i :: 0 <= i < |withUser| ==> withUser[i].id != BotMessage(replyAt).id
    ensures var r := AfterSend(withUser, Streams(chunks, fails), replyAt, errorAt);
      |r| == |withUser| + (if fails then 2 else 1) &&
      r[..|withUser|] == withUser &&
      r[|withUser|] == BotMessage(replyAt).(text := Concat(chunks)) &&
      (fails ==> r[|withUser| + 1] == ErrorMessage(errorAt))
  {
    var bot := BotMessage(replyAt);
    UpdateOnlyTheBotMessage(withUser, bot, Concat(chunks));
    var streamed := AfterStream(withUser + [bot], bot.id, chunks);
    assert streamed == withUser + [bot.(text := Concat(chunks))];
  }

  /** One chunk more: rewriting the bot message with the longer text gives the
      list after one more chunk. */
  lemma StreamStep(base: seq<Message>, id: string, chunks: seq<string>, i: nat)
    requires i < |chunks|
    ensures Concat(chunks[..i + 1]) == Concat(chunks[..i]) + chunks[i]
    ensures UpdateText(AfterStream(base, id, chunks[..i]), id, Concat(chunks[..i]) + chunks[i])
            == AfterStream(base, id, chunks[..i + 1])
  {
    assert chunks[..i + 1][..i] == chunks[..i];
    if i > 0 {
      UpdateTextOverwrites(base, id, Concat(chunks[..i]), Concat(chunks[..i + 1]));
    }
  }

  class Chatbot {
    var messages: seq<Message>
    var inputValue: string
    var isLoading: bool

    /** The widget starts with the bot's greeting and an empty input. */
    constructor (openedAt: int)
      ensures messages == [Message(GreetingId, Greeting, Bot, openedAt)]
      ensures inputValue == "" && !isLoading
    {
      messages := [Message(GreetingId, Greeting, Bot, openedAt)];
      inputValue := "";
      isLoading := false;
    }

    /** `handleSendMessage`. `sentAt`, `replyAt` and `errorAt` are the clock
        when the user's message, the bot's message and the apology are made;
        `payload` is the request body's `messages`, and `sent` is false when the
        input was blank and nothing happened. */
    method HandleSendMessage(reply: ChatReply, sentAt: nat, replyAt: nat, errorAt: nat)
      returns (payload: seq<ChatRoute.ChatMessage>, sent: bool)
      modifies this
      ensures Text.IsBlank(old(inputValue)) ==>
        !sent && messages == old(messages) && inputValue == old(inputValue) && isLoading == old(isLoading)
      ensures !Text.IsBlank(old(inputValue)) ==>
        var withUser := old(messages) + [Message(Text.NatToDecimal(sentAt), old(inputValue), User, sentAt)];
        sent && inputValue == "" && !isLoading &&
        payload == ToPayload(withUser) && |payload| == |old(messages)| + 1 &&
        messages == AfterSend(withUser, reply, replyAt, errorAt)
    {
      Text.TrimEmptyIffBlank(inputValue);
      if Text.Trim(inputValue) == "" {
        return [], false;
      }
      payload := Submit(reply, sentAt, replyAt, errorAt);
      sent := true;
    }

    /** The non-blank path of `handleSendMessage`: the user's message is
        appended, the input cleared, the payload built from the list with the
        user's message, and the reply handled before loading ends. */
    method Submit(reply: ChatReply, sentAt: nat, replyAt: nat, errorAt: nat)
      returns (payload: seq<ChatRoute.ChatMessage>)
      modifies this
      ensures var withUser := old(messages) + [Message(Text.NatToDecimal(sentAt), old(inputValue), User, sentAt)];
        inputValue == "" && !isLoading && payload == ToPayload(withUser) &&
        messages == AfterSend(withUser, reply, replyAt, errorAt)
    {
      var withUser := messages + [Message(Text.NatToDecimal(sentAt), inputValue, User, sentAt)];
      messages := withUser;
      inputValue := "";
      isLoading := true;
      payload := ToPayload(withUser);
      Respond(reply, replyAt, errorAt);
      isLoading := false;
    }

    /** The `try` block after the user's message is in the list: the bot's
        message and its stream, or the apology. */
    method Respond(reply: ChatReply, replyAt: nat, errorAt: nat)
      modifies this`messages
      ensures messages == AfterSend(old(messages), reply, replyAt, errorAt)
    {
      match reply {
        case RequestFailed =>
          messages := messages + [ErrorMessage(errorAt)];
        case NotOk =>
          messages := messages + [ErrorMessage(errorAt)];
        case NoBody =>
          messages := messages + [BotMessage(replyAt)];
        case Streams(chunks, fails) =>
          var botMessage := BotMessage(replyAt);
          messages := messages + [botMessage];
          ReadStream(botMessage.id, chunks);
          if fails {
            messages := messages + [ErrorMessage(errorAt)];
          }
      }
    }

    /** The `while (reader)` loop: each chunk is added to the bot's text, and
        the message with the bot's id is rewritten with the text so far. */
    method ReadStream(botId: string, chunks: seq<string>)
      modifies this`messages
      ensures messages == AfterStream(old(messages), botId, chunks)
    {
      ghost var streaming := messages;
      var botText := "";
      var i := 0;
      while i < |chunks|
        invariant 0 <= i <= |chunks|
        invariant botText == Concat(chunks[..i])
        invariant messages == AfterStream(streaming, botId, chunks[..i])
      {
        StreamStep(streaming, botId, chunks, i);
        botText := botText + chunks[i];
        messages := UpdateText(messages, botId, botText);
        i := i + 1;
      }
      assert chunks[..|chunks|] == chunks;
    }
  }

  /** The first exchange: a bot greeting is the only earlier message, so the
      history the chat endpoint builds from the payload is empty. */
  lemma FirstExchangeHasEmptyHistory(greeting: Message, userMessage: Message)
    requires greeting.sender == Bot
    ensures ChatRoute.BuildHistory(ToPayload([greeting, userMessage])) == []
  {
    var p := ToPayload([greeting, userMessage]);
    var prior := ChatRoute.AllButLast(p);
    assert prior == [p[0]];
    assert prior[..0] == [];
    assert ChatRoute.Candidates(prior) == [ChatRoute.HistoryEntry(ChatRoute.ModelRole, [greeting.text])];
  }

  /** The bot's id is read after the user's, so the two ids differ. */
  lemma MessageIdsDiffer(sentAt: nat, replyAt: nat)
    requires sentAt <= replyAt
    ensures Text.NatToDecimal(sentAt) != Text.NatToDecimal(replyAt + 1)
  {
    Text.DecimalInjective(sentAt, replyAt + 1);
  }
}
