/** `build_chat_prompt`: the last six (user, assistant) pairs of the
    conversation, then the new question. */
module Chat {
  import opened Text

  /** How many pairs of history the prompt keeps. */
  const WINDOW: nat := 6

  /** One earlier exchange, as the prompt writes it. */
  function TurnText(user: string, assistant: string): string {
    "User: " + user + "\nAssistant: " + assistant + "\n"
  }

  /** The exchanges written one after the other. */
  function Transcript(turns: seq<(string, string)>): string
    decreases |turns|
  {
    if turns == [] then ""
    else Transcript(turns[..|turns| - 1]) + TurnText(turns[|turns| - 1].0, turns[|turns| - 1].1)
  }

  /** Python `history[-6:]`: the whole history when it is shorter. */
  function Window(history: seq<(string, string)>): seq<(string, string)> {
    if |history| <= WINDOW then history else history[|history| - WINDOW..]
  }

  /** The closing line that asks the new question. */
  function QuestionText(question: string): string {
    "User: " + question + "\nAssistant:"
  }

  /** The prompt the chat sends. */
  function ChatPrompt(history: seq<(string, string)>, question: string): string {
    Transcript(Window(history)) + QuestionText(question)
  }

  /** `build_chat_prompt`, appending one exchange at a time. */
  method BuildChatPrompt(history: seq<(string, string)>, question: string) returns (chat: string)
    ensures chat == ChatPrompt(history, question)
  {
    var window := if |history| <= WINDOW then history else history[|history| - WINDOW..];
    chat := "";
    var i := 0;
    while i < |window|
      invariant 0 <= i <= |window|
      invariant chat == Transcript(window[..i])
    {
      var (u, a) := window[i];
      var line := "User: " + u + "\nAssistant: " + a + "\n";
      assert window[..i + 1][..i] == window[..i];
      assert Transcript(window[..i + 1]) == chat + line;
      chat := chat + line;
      i := i + 1;
    }
    assert window[..i] == window;
    var last := "User: " + question + "\nAssistant:";
    chat := chat + last;
  }

  /** The window holds the last min(|history|, 6) pairs, in order. */
  lemma WindowIsLastPairs(history: seq<(string, string)>)
    ensures |Window(history)| == if |history| < WINDOW then |history| else WINDOW
    ensures Window(history) == history[|history| - |Window(history)|..]
  {
  }

  /** Transcripts split over concatenation. */
  lemma {:induction false} TranscriptAppend(a: seq<(string, string)>, b: seq<(string, string)>)
    ensures Transcript(a + b) == Transcript(a) + Transcript(b)
    decreases |b|
  {
    if b == [] {
      assert a + b == a;
    } else {
      var ab := a + b;
      var last := b[|b| - 1];
      assert ab[..|ab| - 1] == a + b[..|b| - 1];
      assert ab[|ab| - 1] == last;
      TranscriptAppend(a, b[..|b| - 1]);
      var x, y, z := Transcript(a), Transcript(b[..|b| - 1]), TurnText(last.0, last.1);
      assert Transcript(ab) == (x + y) + z;
      assert Transcript(b) == y + z;
      assert (x + y) + z == x + (y + z);
    }
  }

  /** Once six pairs have been exchanged, anything older does not reach the
      prompt. */
  lemma OlderHistoryIgnored(older: seq<(string, string)>, recent: seq<(string, string)>, question: string)
    requires |recent| >= WINDOW
    ensures ChatPrompt(older + recent, question) == ChatPrompt(recent, question)
  {
    var h := older + recent;
    assert h[|h| - WINDOW..] == recent[|recent| - WINDOW..];
  }

  /** A short history is included whole, exchange after exchange. */
  lemma ShortHistoryWhole(history: seq<(string, string)>, question: string)
    requires |history| <= WINDOW
    ensures ChatPrompt(history, question) == Transcript(history) + QuestionText(question)
  {
  }

  /** Each exchange adds its own lines and nothing else. */
  lemma TranscriptOneMore(turns: seq<(string, string)>, user: string, assistant: string)
    ensures Transcript(turns + [(user, assistant)]) == Transcript(turns) + TurnText(user, assistant)
  {
    TranscriptAppend(turns, [(user, assistant)]);
    assert Transcript([(user, assistant)]) == Transcript([]) + TurnText(user, assistant);
  }

  /** Every prompt ends by asking the new question. */
  lemma PromptEndsWithQuestion(history: seq<(string, string)>, question: string)
    ensures EndsWith(ChatPrompt(history, question), QuestionText(question))
  {
    var p := ChatPrompt(history, question);
    assert p[|p| - |QuestionText(question)|..] == QuestionText(question);
  }

  /** Without history the prompt is the question alone. */
  lemma EmptyHistory(question: string)
    ensures ChatPrompt([], question) == "User: " + question + "\nAssistant:"
  {
  }
}
