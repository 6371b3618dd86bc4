/** The floating assistant (`components/ChatBot.tsx`): the transcript, the send guard, and
    the two halves of `handleSend`, before and after the call to the reply generator. The
    generator itself is not modelled; its answer arrives as an `Outcome`. */
module ChatBot {
  import opened Wrappers
  import opened Types
  import opened Text

  /** One `{ role, parts: [{ text }] }` entry of the history handed to the generator. */
  datatype HistoryEntry = HistoryEntry(role: ChatRole, parts: seq<string>)

  /** What the awaited generator call produced: a reply text, or a thrown error. */
  datatype Outcome = Answered(text: string) | Failed

  /** The call in flight: the user's text and the history sent with it. */
  datatype Request = Request(userText: string, history: seq<HistoryEntry>)

  const Greeting: string := "Yo! I'm ArdBot. Need help with a mix, lyrics, or checking your WiFi speed?"

  const ErrorText: string := "My connection is a bit glitchy right now. Try again?"

  /** `messages.map(m => ({ role: m.role, parts: [{ text: m.text }] }))`: the error flag is
      dropped, order, roles and texts are kept. */
  function ToHistory(messages: seq<ChatMessage>): (h: seq<HistoryEntry>)
    ensures |h| == |messages|
    ensures forall i :: 0 <= i < |messages| ==> h[i].role == messages[i].role && h[i].parts == [messages[i].text]
  {
    if messages == [] then []
    else ToHistory(messages[..|messages| - 1]) + [HistoryEntry(messages[|messages| - 1].role, [messages[|messages| - 1].text])]
  }

  /** Building the history commutes with appending turns. */
  lemma {:induction false} ToHistoryAppend(a: seq<ChatMessage>, b: seq<ChatMessage>)
    ensures ToHistory(a + b) == ToHistory(a) + ToHistory(b)
    decreases |b|
  {
    if b == [] {
      assert a + b == a;
    } else {
      var b' := b[..|b| - 1];
      assert (a + b)[..|a + b| - 1] == a + b';
      ToHistoryAppend(a, b');
    }
  }

  /** The guard that makes a send a no-op: blank input, or a request already loading. */
  predicate SendBlocked(input: string, isLoading: bool) {
    AllWhitespace(input) || isLoading
  }

  /** The guard is the source's `!input.trim() || isLoading`: trimming leaves nothing exactly
      when the input is empty or made only of whitespace. */
  lemma SendBlockedIsTrimTest(input: string, isLoading: bool)
    ensures SendBlocked(input, isLoading) <==> Trim(input) == "" || isLoading
  {
    TrimEmptyIffBlank(input);
  }

  /** The model turn appended once the generator call settles. */
  function ReplyMessage(outcome: Outcome): (m: ChatMessage)
    ensures m.role == Model
    ensures m.isError <==> outcome.Failed?
    ensures m.text == if outcome.Answered? then outcome.text else ErrorText
  {
    match outcome
    case Answered(text) => ChatMessage(Model, text, false)
    case Failed => ChatMessage(Model, ErrorText, true)
  }

  class ChatWindow {
    var isOpen: bool
    var messages: seq<ChatMessage>
    var input: string
    var isLoading: bool
    /** The generator call `handleSend` is awaiting, if any. */
    var inFlight: Option<Request>

    /** Loading exactly while a call is in flight; the call carries the user's turn, which
        is the last turn of the transcript, and the history of every turn before it. */
    ghost predicate Valid()
      reads this
    {
      (isLoading <==> inFlight.Some?) &&
      (inFlight.Some? ==>
        messages != [] &&
        messages[|messages| - 1] == ChatMessage(User, inFlight.value.userText, false) &&
        inFlight.value.history == ToHistory(messages[..|messages| - 1]))
    }

    /** The initial state: closed, one greeting turn, empty input, not loading. */
    constructor()
      ensures Valid()
      ensures !isOpen && messages == [ChatMessage(Model, Greeting, false)] && input == "" && !isLoading
    {
      isOpen := false;
      messages := [ChatMessage(Model, Greeting, false)];
      input := "";
      isLoading := false;
      inFlight := None;
    }

    /** The trigger button (shown while closed) and the header's close button. */
    method SetOpen(open: bool)
      requires Valid()
      modifies this
      ensures Valid()
      ensures isOpen == open
      ensures messages == old(messages) && input == old(input) && isLoading == old(isLoading) && inFlight == old(inFlight)
    {
      isOpen := open;
    }

    /** The text field's `onChange`. */
    method EditInput(text: string)
      requires Valid() && isOpen
      modifies this
      ensures Valid()
      ensures input == text
      ensures isOpen == old(isOpen) && messages == old(messages) && isLoading == old(isLoading) && inFlight == old(inFlight)
    {
      input := text;
    }

    /** The part of `handleSend` before the `await`: unless blocked, the input is cleared,
        the untrimmed text is appended as a user turn, loading starts, and the generator is
        called with that text and the history of the transcript before it. */
    method Send()
      requires Valid() && isOpen
      modifies this
      ensures Valid()
      ensures old(SendBlocked(input, isLoading)) ==>
        input == old(input) && messages == old(messages) && isLoading == old(isLoading) && inFlight == old(inFlight)
      ensures !old(SendBlocked(input, isLoading)) ==>
        input == "" && isLoading &&
        messages == old(messages) + [ChatMessage(User, old(input), false)] &&
        inFlight == Some(Request(old(input), ToHistory(old(messages))))
      ensures isOpen == old(isOpen)
    {
      if SendBlocked(input, isLoading) {
        return;
      }
      var userText := input;
      input := "";
      var before := messages;
      messages := messages + [ChatMessage(User, userText, false)];
      assert messages[..|messages| - 1] == before;
      isLoading := true;
      inFlight := Some(Request(userText, ToHistory(before)));
    }

    /** The part after the `await`: the reply or the fixed error turn is appended and
        loading ends, in both cases. */
    method Settle(outcome: Outcome)
      requires Valid() && inFlight.Some?
      modifies this
      ensures Valid()
      ensures messages == old(messages) + [ReplyMessage(outcome)]
      ensures !isLoading && inFlight == None
      ensures input == old(input) && isOpen == old(isOpen)
    {
      messages := messages + [ReplyMessage(outcome)];
      isLoading := false;
      inFlight := None;
    }

    /** A whole accepted `handleSend`, with any input typed while it was loading: the
        transcript grows by exactly the user turn and the reply turn. */
    method HandleSend(typedMeanwhile: Option<string>, outcome: Outcome)
      requires Valid() && isOpen && !SendBlocked(input, isLoading)
      modifies this
      ensures Valid()
      ensures messages == old(messages) + [ChatMessage(User, old(input), false), ReplyMessage(outcome)]
      ensures |messages| == |old(messages)| + 2 && !isLoading
      ensures input == typedMeanwhile.GetOr("")
      ensures isOpen == old(isOpen) && inFlight == None
    {
      Send();
      if typedMeanwhile.Some? {
        EditInput(typedMeanwhile.value);
      }
      Settle(outcome);
    }
  }
}
