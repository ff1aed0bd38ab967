/** One chat message as shown: a user's text as a single bubble, an
    assistant's text split into lines, each line classified by its first
    matching markup. */
module ChatMessage {
  import opened Common
  import opened Text

  /** One rendered line of an assistant message. */
  datatype Block =
    | Heading(text: string)
    | Bullet(text: string)
    | CheckItem(text: string)
    | Warning(text: string)
    | Numbered(text: string)
    | Spacer
    | Paragraph(text: string)

  const BoldMark := "**"
  const BulletMark := "\U{2022} "
  const CheckMark := "\U{2705} "
  /** The warning sign followed by the emoji variation selector: two
      characters before the space. */
  const WarningMark := "\U{26A0}\U{FE0F} "

  /** `line.slice(2, -2)`: two characters off each end, and nothing once the
      ends meet. */
  function Inner(line: string): (r: string)
    ensures |r| == if |line| >= 4 then |line| - 4 else 0
    ensures |line| >= 4 ==> line == line[..2] + r + line[|line| - 2..]
  {
    if |line| >= 4 then line[2..|line| - 2] else ""
  }

  /** `line.slice(2)`. */
  function DropTwo(line: string): (r: string)
    ensures |line| >= 2 ==> line == line[..2] + r
    ensures |line| < 2 ==> r == ""
  {
    if |line| >= 2 then line[2..] else ""
  }

  predicate IsDigit(c: char)
  {
    '0' <= c <= '9'
  }

  /** `/^\d+\./`: one or more digits, then a full stop. */
  predicate DigitsThenDot(s: string)
  {
    |s| >= 2 && IsDigit(s[0]) && (s[1] == '.' || DigitsThenDot(s[1..]))
  }

  /** The same test by position: a dot at some index `n` of at least 1 with
      only digits before it. */
  predicate DotAfterDigits(s: string, n: nat)
  {
    1 <= n < |s| && s[n] == '.' && forall i | 0 <= i < n :: IsDigit(s[i])
  }

  lemma {:induction false} DigitsThenDotSound(s: string) returns (n: nat)
    requires DigitsThenDot(s)
    ensures DotAfterDigits(s, n)
  {
    if s[1] == '.' {
      n := 1;
    } else {
      var m := DigitsThenDotSound(s[1..]);
      n := m + 1;
      forall i | 0 <= i < n ensures IsDigit(s[i]) {
        if i > 0 {
          assert s[i] == s[1..][i - 1];
        }
      }
    }
  }

  lemma {:induction false} DigitsThenDotComplete(s: string, n: nat)
    requires DotAfterDigits(s, n)
    ensures DigitsThenDot(s)
  {
    if n > 1 {
      var t := s[1..];
      assert t[n - 1] == s[n];
      forall i | 0 <= i < n - 1 ensures IsDigit(t[i]) {
        assert t[i] == s[i + 1];
      }
      DigitsThenDotComplete(t, n - 1);
    }
  }

  /** `formatContent` for one line: the markups are tried in this order and
      the first that matches decides. */
  function FormatLine(line: string): Block
  {
    if StartsWith(line, BoldMark) && EndsWith(line, BoldMark) then Heading(Inner(line))
    else if StartsWith(line, BulletMark) then Bullet(line)
    else if StartsWith(line, CheckMark) then CheckItem(DropTwo(line))
    else if StartsWith(line, WarningMark) then Warning(DropTwo(line))
    else if DigitsThenDot(line) then Numbered(line)
    else if IsBlank(line) then Spacer
    else Paragraph(line)
  }

  function FormatLines(lines: seq<string>): (r: seq<Block>)
    ensures |r| == |lines|
    ensures forall k | 0 <= k < |lines| :: r[k] == FormatLine(lines[k])
  {
    if lines == [] then [] else [FormatLine(lines[0])] + FormatLines(lines[1..])
  }

  /** `formatContent`: the content split at every newline, a block per line. */
  function FormatContent(content: string): seq<Block>
  {
    FormatLines(Split(content, '\n'))
  }

  /** One block per newline-separated line, in order: one more than the
      newlines, and block `k` is the classification of line `k`. */
  lemma FormatContentShape(content: string)
    ensures |FormatContent(content)| == Count(content, '\n') + 1
    ensures forall k | 0 <= k < |FormatContent(content)| ::
              FormatContent(content)[k] == FormatLine(Split(content, '\n')[k])
  {
    SplitShape(content, '\n');
  }

  /** A line wrapped in two asterisks at each end shows what it wraps,
      whatever that is. */
  lemma BoldRoundTrip(t: string)
    ensures FormatLine(BoldMark + t + BoldMark) == Heading(t)
  {
    var line := BoldMark + t + BoldMark;
    assert line[..2] == BoldMark;
    assert line[|line| - 2..] == BoldMark;
    assert line[2..|line| - 2] == t;
  }

  /** "**" and "***" start and end with the mark and show an empty heading. */
  lemma ShortBold()
    ensures FormatLine("**") == Heading("")
    ensures FormatLine("***") == Heading("")
  {
    assert "***"[1..] == "**";
  }

  /** A bullet line is kept whole, bullet included. */
  lemma BulletKept(t: string)
    ensures FormatLine(BulletMark + t) == Bullet(BulletMark + t)
  {
    var line := BulletMark + t;
    assert line[..2] == BulletMark;
  }

  /** A check line shows what follows the mark and its space. */
  lemma CheckRoundTrip(t: string)
    ensures FormatLine(CheckMark + t) == CheckItem(t)
  {
    var line := CheckMark + t;
    assert line[..2] == CheckMark;
    assert line[2..] == t;
  }

  /** The warning mark is two characters before its space and only two are
      dropped, so the shown text keeps the space. */
  lemma WarningKeepsSpace(t: string)
    ensures FormatLine(WarningMark + t) == Warning(" " + t)
  {
    var line := WarningMark + t;
    assert line[..3] == WarningMark;
    assert line[2..] == " " + t;
    assert line[0] == '\U{26A0}';
  }

  /** A numbered line is kept whole: it starts with a digit, so no earlier markup matches. */
  lemma NumberedKept(line: string)
    requires DigitsThenDot(line)
    ensures FormatLine(line) == Numbered(line)
  {
  }

  /** A line that starts with a character other than whitespace is not blank. */
  lemma StartNotBlank(line: string, mark: string)
    requires |mark| > 0 && !IsWhitespace(mark[0])
    ensures StartsWith(line, mark) ==> !IsBlank(line)
  {
    if StartsWith(line, mark) {
      assert line[0] == mark[0];
    }
  }

  /** A numbered line starts with a digit, so it is not blank. */
  lemma NumberedNotBlank(line: string)
    ensures DigitsThenDot(line) ==> !IsBlank(line)
  {
    if DigitsThenDot(line) {
      assert IsDigit(line[0]);
    }
  }

  /** A line shows as a spacer exactly when it is empty or all whitespace. */
  lemma SpacerIffBlank(line: string)
    ensures FormatLine(line) == Spacer <==> IsBlank(line)
  {
    StartNotBlank(line, BoldMark);
    StartNotBlank(line, BulletMark);
    StartNotBlank(line, CheckMark);
    StartNotBlank(line, WarningMark);
    NumberedNotBlank(line);
  }

  /** Bullets, numbered lines and paragraphs show the line unchanged. */
  lemma VerbatimKinds(line: string)
    ensures FormatLine(line).Bullet? || FormatLine(line).Numbered? || FormatLine(line).Paragraph?
            ==> FormatLine(line).text == line
  {
  }

  /** Heading wins over every other markup: "**1. Scope**" is a heading. */
  lemma HeadingFirst()
    ensures FormatLine("**1. Scope**") == Heading("1. Scope")
  {
    BoldRoundTrip("1. Scope");
    assert BoldMark + "1. Scope" + BoldMark == "**1. Scope**";
  }

  datatype Sender = User | Assistant

  datatype Message = Message(id: string, sender: Sender, content: string, fileContext: Option<string>)

  /** What the message shows: the user's text in one piece, or the
      assistant's text as blocks, with the file badge when there is one. */
  datatype View =
    | UserBubble(text: string, badge: Option<string>)
    | AssistantBubble(blocks: seq<Block>, badge: Option<string>)

  /** `message.fileContext && ...`: an absent or empty context shows no badge. */
  function Badge(fileContext: Option<string>): (r: Option<string>)
    ensures r.Some? <==> fileContext.Some? && fileContext.value != ""
    ensures r.Some? ==> r == fileContext
  {
    if fileContext.Some? && fileContext.value != "" then fileContext else None
  }

  function Render(m: Message): View
  {
    if m.sender == User then UserBubble(m.content, Badge(m.fileContext))
    else AssistantBubble(FormatContent(m.content), Badge(m.fileContext))
  }

  /** Only assistant messages are split: a user's text is shown whole, newlines
      included, and an assistant's has a block per line. */
  lemma RenderSpec(m: Message)
    ensures m.sender == User ==> Render(m).UserBubble? && Render(m).text == m.content
    ensures m.sender == Assistant ==>
              Render(m).AssistantBubble? && |Render(m).blocks| == Count(m.content, '\n') + 1
  {
    FormatContentShape(m.content);
  }
}
