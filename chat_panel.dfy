/**
 * The course page's chat panel: a message history that starts with a welcome, an input
 * box into which the current video position can be inserted as a `[MM:SS]` tag, and a
 * send action that records the question (with the first tag's time) and later appends
 * a canned answer chosen by keyword.
 */
module ChatPanelModel {
  import opened Wrappers
  import opened JsText

  datatype Role = User | Assistant

  /** One chat message; the id and wall-clock time are not modelled. */
  datatype Message = Message(role: Role, content: string, videoTimestamp: Option<string>)

  const WelcomeText: string := "您好！我是 AI 助教，有什麼問題都可以問我。"
  const Welcome: Message := Message(Assistant, WelcomeText, None)

  // ---------------------------------------------------------------- video time

  /** Minutes below 100 pad to two digits; from 100 on they take three or more. */
  lemma MinutesWidth(seconds: nat)
    ensures seconds < 6000 ==> |PadStart2(NatToString(seconds / 60))| == 2
    ensures seconds >= 6000 ==> |PadStart2(NatToString(seconds / 60))| >= 3
    ensures |PadStart2(NatToString(seconds % 60))| == 2
  {
    PaddedTwoDigits(seconds % 60);
    if seconds < 6000 {
      PaddedTwoDigits(seconds / 60);
    } else {
      assert DigitCount(seconds / 60) == DigitCount(seconds / 60 / 10) + 1;
      assert DigitCount(seconds / 60 / 10) == DigitCount(seconds / 60 / 100) + 1;
    }
  }

  /** `formatTime`: whole minutes and remaining seconds, each padded to two digits. */
  function FormatTime(seconds: nat): (r: string)
    ensures seconds < 6000 ==> |r| == 5 && r[2] == ':'
    ensures seconds >= 6000 ==> |r| >= 6
  {
    MinutesWidth(seconds);
    PadStart2(NatToString(seconds / 60)) + ":" + PadStart2(NatToString(seconds % 60))
  }

  /** Reads `MM:SS` back as seconds. */
  function ParseTime(s: string): nat
    requires |s| == 5 && AllDigits(s[..2]) && AllDigits(s[3..])
  {
    DigitsValue(s[..2]) * 60 + DigitsValue(s[3..])
  }

  /** Below 100 minutes the formatted time is `dd:dd` and reads back as the same number of seconds. */
  lemma FormatTimeRoundTrip(seconds: nat)
    requires seconds < 6000
    ensures var r := FormatTime(seconds);
            |r| == 5 && AllDigits(r[..2]) && r[2] == ':' && AllDigits(r[3..]) && ParseTime(r) == seconds
  {
    var mins := PadStart2(NatToString(seconds / 60));
    var secs := PadStart2(NatToString(seconds % 60));
    PaddedTwoDigits(seconds / 60);
    PaddedTwoDigits(seconds % 60);
    var r := FormatTime(seconds);
    assert r[..2] == mins && r[3..] == secs;
  }

  // ---------------------------------------------------------------- the `[dd:dd]` tag

  /** `s` has a `[dd:dd]` tag starting at `i`. */
  predicate TagAt(s: string, i: nat) {
    && i + 7 <= |s|
    && s[i] == '[' && IsDigit(s[i + 1]) && IsDigit(s[i + 2]) && s[i + 3] == ':'
    && IsDigit(s[i + 4]) && IsDigit(s[i + 5]) && s[i + 6] == ']'
  }

  /** The leftmost tag at or after `from`, as the regular expression finds it. */
  function FindTag(s: string, from: nat): (r: Option<nat>)
    ensures r.Some? ==> from <= r.value && TagAt(s, r.value)
    ensures r.Some? ==> forall j | from <= j < r.value :: !TagAt(s, j)
    ensures r.None? ==> forall j | from <= j :: !TagAt(s, j)
    decreases |s| - from
  {
    if from + 7 > |s| then None
    else if TagAt(s, from) then Some(from)
    else FindTag(s, from + 1)
  }

  /** `input.match(/\[(\d{2}:\d{2})\]/)?.[1]`: the time inside the first tag. */
  function TagTime(s: string): Option<string> {
    match FindTag(s, 0)
    case None => None
    case Some(i) => Some(s[i + 1..i + 6])
  }

  // `input.replace` of the first `[dd:dd]` tag followed by any run of whitespace, with "".
  /** The input with its first tag and the whitespace right after it removed. */
  function WithoutTag(s: string): string {
    match FindTag(s, 0)
    case None => s
    case Some(i) => s[..i] + TrimStart(s[i + 7..])
  }

  /** Text without a tag is reported without a time and passed on unchanged. */
  lemma NoTagUnchanged(s: string)
    requires forall j | 0 <= j :: !TagAt(s, j)
    ensures TagTime(s) == None && WithoutTag(s) == s
  {
  }

  /** A `[dd:dd] ` prefix is the first tag. */
  lemma LeadingTagFound(t: string, rest: string)
    requires |t| == 5 && IsDigit(t[0]) && IsDigit(t[1]) && t[2] == ':' && IsDigit(t[3]) && IsDigit(t[4])
    ensures FindTag("[" + t + "] " + rest, 0) == Some(0)
  {
    var s := "[" + t + "] " + rest;
    assert s[0] == '[' && s[1] == t[0] && s[2] == t[1] && s[3] == ':' && s[4] == t[3] && s[5] == t[4] && s[6] == ']';
    assert TagAt(s, 0);
  }

  /** A `[dd:dd] ` prefix gives its time, and is stripped with the whitespace after it. */
  lemma LeadingTag(t: string, rest: string)
    requires |t| == 5 && IsDigit(t[0]) && IsDigit(t[1]) && t[2] == ':' && IsDigit(t[3]) && IsDigit(t[4])
    ensures TagTime("[" + t + "] " + rest) == Some(t)
    ensures WithoutTag("[" + t + "] " + rest) == TrimStart(rest)
  {
    var s := "[" + t + "] " + rest;
    LeadingTagFound(t, rest);
    assert TagTime(s) == Some(t) by {
      assert s[1..6] == t;
    }
    assert WithoutTag(s) == TrimStart(rest) by {
      assert s[..0] == [] && s[7..] == " " + rest;
      TrimStartOfSpace(rest);
    }
  }

  lemma TrimStartOfSpace(rest: string)
    ensures TrimStart(" " + rest) == TrimStart(rest)
  {
    assert (" " + rest)[1..] == rest;
  }

  /** The tag `insertTimestamp` writes is found first, yields the time written, and is stripped with its space. */
  lemma InsertedTagRoundTrip(seconds: nat, rest: string)
    requires seconds < 6000
    ensures TagTime("[" + FormatTime(seconds) + "] " + rest) == Some(FormatTime(seconds))
    ensures WithoutTag("[" + FormatTime(seconds) + "] " + rest) == TrimStart(rest)
  {
    FormatTimeRoundTrip(seconds);
    var t := FormatTime(seconds);
    assert t[..2][0] == t[0] && t[..2][1] == t[1] && t[3..][0] == t[3] && t[3..][1] == t[4];
    LeadingTag(t, rest);
  }

  // ---------------------------------------------------------------- canned answers

  const GradientReply: string := "梯度下降是一種優化演算法，用於尋找函數的最小值。它通過計算損失函數對參數的梯度，然後沿著梯度的反方向更新參數。"
  const NeuralReply: string := "神經網路是由多個層級組成的計算模型，每一層包含多個神經元。通過前向傳播和反向傳播，神經網路可以學習複雜的模式。"
  const OverfittingReply: string := "過擬合是指模型在訓練資料上表現很好，但在測試資料上表現較差的現象。可以通過正則化、dropout、增加資料量等方法來緩解。"
  const LossReply: string := "損失函數用來衡量模型預測值與真實值之間的差異。常見的損失函數包括均方誤差（MSE）和交叉熵（Cross-Entropy）。"
  const GenericReply: string := "這是一個很好的問題！根據您提到的內容，我建議您可以參考課程教材中的相關章節，或者查看相關的補充資料。如果還有其他問題，歡迎繼續提問！"

  predicate AboutGradient(lower: string) { Contains(lower, "梯度") || Contains(lower, "gradient") }
  predicate AboutNeural(lower: string) { Contains(lower, "神經網路") || Contains(lower, "neural") }
  predicate AboutOverfitting(lower: string) { Contains(lower, "過擬合") || Contains(lower, "overfitting") }
  predicate AboutLoss(lower: string) { Contains(lower, "損失函數") || Contains(lower, "loss") }

  /** The topics the canned answers cover, and the catch-all. */
  datatype Topic = Gradient | Neural | Overfitting | Loss | General

  /** The first topic, in the fixed order gradient, neural network, overfitting, loss, that the text mentions. */
  function TopicOf(lower: string): (t: Topic)
    ensures t == Gradient <==> AboutGradient(lower)
    ensures t == Neural <==> !AboutGradient(lower) && AboutNeural(lower)
    ensures t == Overfitting <==> !AboutGradient(lower) && !AboutNeural(lower) && AboutOverfitting(lower)
    ensures t == Loss <==> !AboutGradient(lower) && !AboutNeural(lower) && !AboutOverfitting(lower) && AboutLoss(lower)
    ensures t == General <==> !AboutGradient(lower) && !AboutNeural(lower) && !AboutOverfitting(lower) && !AboutLoss(lower)
  {
    if AboutGradient(lower) then Gradient
    else if AboutNeural(lower) then Neural
    else if AboutOverfitting(lower) then Overfitting
    else if AboutLoss(lower) then Loss
    else General
  }

  function ReplyFor(t: Topic): (r: string)
    ensures r != ""
  {
    match t
    case Gradient => GradientReply
    case Neural => NeuralReply
    case Overfitting => OverfittingReply
    case Loss => LossReply
    case General => GenericReply
  }

  /** `generateMockResponse`: the answer for the first topic the lowercased message mentions. */
  function MockResponse(message: string): (r: string)
    ensures r != ""
  {
    ReplyFor(TopicOf(Lower(message)))
  }

  /** The answer does not depend on letter case. */
  lemma MockResponseIgnoresCase(message: string)
    ensures MockResponse(Lower(message)) == MockResponse(message)
  {
    LowerIdempotent(message);
  }

  /** A message that mentions gradients gets the gradient answer, whatever else it mentions. */
  lemma GradientWins(before: string, after: string)
    ensures TopicOf(Lower(before + "Gradient" + after)) == Gradient
    ensures MockResponse(before + "Gradient" + after) == GradientReply
  {
    LowerAppend(before + "Gradient", after);
    LowerAppend(before, "Gradient");
    assert Lower("Gradient") == "gradient";
    ContainsInfix(Lower(before), "gradient", Lower(after));
  }

  // ---------------------------------------------------------------- the panel

  /** The panel's state: the history and the input box. */
  class ChatPanel {
    var messages: seq<Message>
    var input: string

    /** The history always opens with the welcome message. */
    ghost predicate Valid()
      reads this
    {
      |messages| >= 1 && messages[0] == Welcome
    }

    /** The initial state: only the welcome message, and an empty input. */
    constructor()
      ensures Valid()
      ensures messages == [Welcome] && input == ""
    {
      messages := [Welcome];
      input := "";
    }

    /** `insertTimestamp`: the current video position goes in front of the input as `[MM:SS] `. */
    method InsertTimestamp(currentVideoTime: nat)
      requires Valid()
      modifies this
      ensures Valid()
      ensures input == "[" + FormatTime(currentVideoTime) + "] " + old(input)
      ensures messages == old(messages)
    {
      input := "[" + FormatTime(currentVideoTime) + "] " + input;
    }

    /**
     * `handleSend`: blank input does nothing; otherwise the raw input becomes one user
     * message carrying the first tag's time, the input is cleared, and the text for the
     * answer (tag removed) is returned for the reply that follows.
     */
    method HandleSend() returns (pending: Option<string>)
      requires Valid()
      modifies this
      ensures Valid()
      ensures IsBlank(old(input)) ==> pending.None? && messages == old(messages) && input == old(input)
      ensures !IsBlank(old(input)) ==>
                && messages == old(messages) + [Message(User, old(input), TagTime(old(input)))]
                && input == ""
                && pending == Some(WithoutTag(old(input)))
    {
      if Trim(input) == "" {
        return None;
      }
      var videoTimestamp := TagTime(input);
      var cleanContent := WithoutTag(input);
      messages := messages + [Message(User, input, videoTimestamp)];
      input := "";
      pending := Some(cleanContent);
    }

    /** The delayed reply: one assistant message with the canned answer for the sent text. */
    method DeliverReply(cleanContent: string)
      requires Valid()
      modifies this
      ensures Valid()
      ensures messages == old(messages) + [Message(Assistant, MockResponse(cleanContent), None)]
      ensures input == old(input)
    {
      messages := messages + [Message(Assistant, MockResponse(cleanContent), None)];
    }
  }

  /** Inserting the time and sending records exactly that time, and answers the rest of the question. */
  method SendAtVideoTime(panel: ChatPanel, seconds: nat, question: string)
    requires panel.Valid() && panel.input == question && seconds < 6000
    modifies panel
    ensures panel.Valid()
    ensures panel.messages == old(panel.messages)
              + [Message(User, "[" + FormatTime(seconds) + "] " + question, Some(FormatTime(seconds)))]
              + [Message(Assistant, MockResponse(TrimStart(question)), None)]
    ensures panel.input == ""
  {
    panel.InsertTimestamp(seconds);
    assert !IsBlank(panel.input) by { assert !IsSpace(panel.input[0]); }
    InsertedTagRoundTrip(seconds, question);
    var pending := panel.HandleSend();
    panel.DeliverReply(pending.value);
  }
}
