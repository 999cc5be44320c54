/**
 * The chat widget (components/ChatWidget.tsx): a transcript that starts with a
 * greeting, an input line and a loading flag. Sending is split in two steps:
 * the guarded start, which appends the user's turn and produces the history to
 * hand to the chat service, and the completion, which appends the one reply.
 */
module Chat {
  import opened Types
  import Text

  const Greeting: ChatMessage :=
    ChatMessage(Model, "Hello! I am your Pavan Hans virtual assistant. How can I help you plan your dream trip today?")

  /** Shown when the service answers with no text. */
  const NotUnderstood: string := "Sorry, I couldn't understand that."

  /** Shown when the service call throws (the service does so only when its API key is missing). */
  const Glitch: string := "I'm experiencing a momentary glitch. Please try again."

  /** The service's wire shape of a turn: a role and a list of text parts. */
  datatype Part = Part(text: string)
  datatype HistoryEntry = HistoryEntry(role: Role, parts: seq<Part>)

  /** How the awaited chat call ended: with a text (empty when it had none) or by throwing. */
  datatype ChatOutcome = Replied(text: string) | Threw

  /** messages.map(m => ({ role: m.role, parts: [{ text: m.text }] })) */
  function ToHistory(ms: seq<ChatMessage>): (h: seq<HistoryEntry>)
    ensures |h| == |ms|
  {
    if ms == [] then [] else [HistoryEntry(ms[0].role, [Part(ms[0].text)])] + ToHistory(ms[1..])
  }

  /** Each history entry keeps its message's role and carries its text as the single part. */
  lemma {:induction false} ToHistoryAt(ms: seq<ChatMessage>, i: nat)
    requires i < |ms|
    ensures ToHistory(ms)[i] == HistoryEntry(ms[i].role, [Part(ms[i].text)])
  {
    if i > 0 {
      ToHistoryAt(ms[1..], i - 1);
    }
  }

  function JoinParts(ps: seq<Part>): string
  {
    if ps == [] then "" else ps[0].text + JoinParts(ps[1..])
  }

  /** Reading a history back as a transcript: each entry's parts joined into one text. */
  function FromHistory(h: seq<HistoryEntry>): (ms: seq<ChatMessage>)
    ensures |ms| == |h|
  {
    if h == [] then [] else [ChatMessage(h[0].role, JoinParts(h[0].parts))] + FromHistory(h[1..])
  }

  /** The history loses nothing: the transcript can be read back from it. */
  lemma {:induction false} HistoryRoundTrip(ms: seq<ChatMessage>)
    ensures FromHistory(ToHistory(ms)) == ms
  {
    if ms != [] {
      var h := ToHistory(ms);
      assert h[0] == HistoryEntry(ms[0].role, [Part(ms[0].text)]);
      assert h[1..] == ToHistory(ms[1..]);
      assert [Part(ms[0].text)][1..] == [];
      assert JoinParts([Part(ms[0].text)]) == ms[0].text + "" == ms[0].text;
      HistoryRoundTrip(ms[1..]);
      assert ms == [ms[0]] + ms[1..];
    }
  }

  /** The text of the model turn that follows the user's. */
  function ReplyText(o: ChatOutcome): (t: string)
    ensures t != ""
    ensures o.Replied? && o.text != "" ==> t == o.text
    ensures o.Replied? && o.text == "" ==> t == NotUnderstood
    ensures o.Threw? ==> t == Glitch
  {
    match o
    case Replied(text) => if text != "" then text else NotUnderstood
    case Threw => Glitch
  }

  /** The roles alternate, starting with the model's greeting. */
  ghost predicate Alternates(ms: seq<ChatMessage>)
  {
    forall i :: 0 <= i < |ms| ==> ms[i].role == (if i % 2 == 0 then Model else User)
  }

  ghost predicate NoEmptyText(ms: seq<ChatMessage>)
  {
    forall i :: 0 <= i < |ms| ==> ms[i].text != ""
  }

  /** Appending a non-empty turn of the role due next keeps both properties. */
  lemma AppendTurn(ms: seq<ChatMessage>, m: ChatMessage)
    requires Alternates(ms) && NoEmptyText(ms)
    requires m.role == (if |ms| % 2 == 0 then Model else User) && m.text != ""
    ensures Alternates(ms + [m]) && NoEmptyText(ms + [m])
  {
  }

  class ChatWidget {
    var isOpen: bool
    var input: string
    var isLoading: bool
    var messages: seq<ChatMessage>

    /**
     * The transcript begins with the greeting, alternates model and user turns,
     * holds no empty text, and ends on a user turn exactly while a reply is awaited.
     */
    ghost predicate Valid()
      reads this
    {
      |messages| > 0 && messages[0] == Greeting && Alternates(messages) && NoEmptyText(messages)
      && (isLoading <==> |messages| % 2 == 0)
    }

    constructor ()
      ensures Valid()
      ensures messages == [Greeting] && input == "" && !isLoading && !isOpen
    {
      isOpen := false;
      input := "";
      isLoading := false;
      messages := [Greeting];
    }

    /** The launcher button opens and closes the panel. */
    method Toggle()
      requires Valid()
      modifies this`isOpen
      ensures Valid() && isOpen == !old(isOpen)
    {
      isOpen := !isOpen;
    }

    /** The close button in the panel's header. */
    method Close()
      requires Valid()
      modifies this`isOpen
      ensures Valid() && !isOpen
    {
      isOpen := false;
    }

    method SetInput(s: string)
      requires Valid()
      modifies this`input
      ensures Valid() && input == s
    {
      input := s;
    }

    /**
     * The guarded start of a send. A blank input or a reply already awaited
     * leaves everything alone. Otherwise the trimmed input becomes a user turn,
     * the input clears, the flag goes up, and `history` is the transcript as it
     * was before the user turn, in the service's shape.
     */
    method StartSend() returns (sent: bool, userMessage: string, history: seq<HistoryEntry>)
      requires Valid()
      modifies this`input, this`messages, this`isLoading
      ensures Valid()
      ensures sent <==> Text.Trim(old(input)) != "" && !old(isLoading)
      ensures !sent ==> input == old(input) && messages == old(messages) && isLoading == old(isLoading)
      ensures sent ==> userMessage == Text.Trim(old(input)) && userMessage != ""
      ensures sent ==> input == "" && isLoading
      ensures sent ==> messages == old(messages) + [ChatMessage(User, userMessage)]
      ensures sent ==> history == ToHistory(old(messages))
    {
      userMessage := Text.Trim(input);
      if userMessage == "" || isLoading {
        return false, "", [];
      }
      history := ToHistory(messages);
      AppendTurn(messages, ChatMessage(User, userMessage));
      input := "";
      messages := messages + [ChatMessage(User, userMessage)];
      isLoading := true;
      sent := true;
    }

    /** The completion of a send: exactly one model turn follows, and the flag comes down. */
    method CompleteSend(outcome: ChatOutcome)
      requires Valid() && isLoading
      modifies this`messages, this`isLoading
      ensures Valid()
      ensures messages == old(messages) + [ChatMessage(Model, ReplyText(outcome))]
      ensures !isLoading
    {
      AppendTurn(messages, ChatMessage(Model, ReplyText(outcome)));
      messages := messages + [ChatMessage(Model, ReplyText(outcome))];
      isLoading := false;
    }
  }
}
