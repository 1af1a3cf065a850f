/** Extracting the text of a message and building the history window that is shown to the model. */
module ContentText {
  import opened Wrappers

  /** A parsed value. Of an object the visitor reads three fields; an absent field is Undefined. */
  datatype Json =
    | Undefined
    | Null
    | Bool(flag: bool)
    | Num(value: int)
    | Str(chars: string)
    | Arr(items: seq<Json>)
    | Obj(typ: Json, text: Json, content: Json)

  /** JSON repair and parsing; None when it throws. */
  type Parser = string -> Option<Json>

  // ---------- the visitor ----------

  predicate IsTextLeaf(n: Json) {
    n.Obj? && n.typ == Str("text") && n.text.Str?
  }

  /** What the visitor pushes for a value. */
  function Leaves(n: Json): seq<string> {
    match n
    case Arr(items) => LeavesOf(items)
    case Obj(_, _, content) =>
      (if IsTextLeaf(n) then [n.text.chars] else []) + (if content.Arr? then LeavesOf(content.items) else [])
    case _ => []
  }

  function LeavesOf(items: seq<Json>): seq<string> {
    if items == [] then [] else Leaves(items[0]) + LeavesOf(items[1..])
  }

  /** All objects of a tree in pre-order: each node before its children, children left to right. */
  ghost function PreOrder(n: Json): seq<Json> {
    match n
    case Arr(items) => PreOrderOf(items)
    case Obj(_, _, content) => [n] + (if content.Arr? then PreOrderOf(content.items) else [])
    case _ => []
  }

  ghost function PreOrderOf(items: seq<Json>): seq<Json> {
    if items == [] then [] else PreOrder(items[0]) + PreOrderOf(items[1..])
  }

  ghost function TextsOf(nodes: seq<Json>): seq<string> {
    if nodes == [] then []
    else (if IsTextLeaf(nodes[0]) then [nodes[0].text.chars] else []) + TextsOf(nodes[1..])
  }

  lemma {:induction false} TextsOfConcat(a: seq<Json>, b: seq<Json>)
    ensures TextsOf(a + b) == TextsOf(a) + TextsOf(b)
  {
    if a == [] {
      assert a + b == b;
    } else {
      assert (a + b)[0] == a[0] && (a + b)[1..] == a[1..] + b;
      TextsOfConcat(a[1..], b);
    }
  }

  /** The visitor's output is the text of exactly the text leaves, in pre-order. */
  lemma {:induction false} LeavesInPreOrder(n: Json)
    ensures Leaves(n) == TextsOf(PreOrder(n))
    decreases n, 1
  {
    match n
    case Arr(items) => LeavesOfInPreOrder(n, items);
    case Obj(_, _, content) =>
      var below := if content.Arr? then PreOrderOf(content.items) else [];
      if content.Arr? {
        LeavesOfInPreOrder(content, content.items);
      }
      TextsOfConcat([n], below);
      assert TextsOf([n]) == if IsTextLeaf(n) then [n.text.chars] else [];
    case _ =>
  }

  lemma {:induction false} LeavesOfInPreOrder(parent: Json, items: seq<Json>)
    requires forall i :: 0 <= i < |items| ==> items[i] < parent
    ensures LeavesOf(items) == TextsOf(PreOrderOf(items))
    decreases parent, 0, |items|
  {
    if items != [] {
      LeavesInPreOrder(items[0]);
      LeavesOfInPreOrder(parent, items[1..]);
      TextsOfConcat(PreOrder(items[0]), PreOrderOf(items[1..]));
    }
  }

  /** Visiting two child arrays one after the other is visiting their concatenation. */
  lemma {:induction false} LeavesOfConcat(a: seq<Json>, b: seq<Json>)
    ensures LeavesOf(a + b) == LeavesOf(a) + LeavesOf(b)
  {
    if a == [] {
      assert a + b == b;
    } else {
      assert (a + b)[0] == a[0] && (a + b)[1..] == a[1..] + b;
      LeavesOfConcat(a[1..], b);
    }
  }

  /** The accumulating visitor. */
  class TextCollector {
    var texts: seq<string>

    constructor ()
      ensures texts == []
    {
      texts := [];
    }

    method Visit(n: Json)
      modifies this
      ensures texts == old(texts) + Leaves(n)
      decreases n, 1
    {
      match n {
        case Arr(items) =>
          VisitEach(n, items);
        case Obj(_, _, content) =>
          if IsTextLeaf(n) {
            texts := texts + [n.text.chars];
          }
          if content.Arr? {
            VisitEach(content, content.items);
          }
        case _ =>
      }
    }

    method VisitEach(ghost parent: Json, items: seq<Json>)
      requires forall i :: 0 <= i < |items| ==> items[i] < parent
      modifies this
      ensures texts == old(texts) + LeavesOf(items)
      decreases parent, 0
    {
      for i := 0 to |items|
        invariant texts == old(texts) + LeavesOf(items[..i])
      {
        Visit(items[i]);
        assert items[..i + 1] == items[..i] + [items[i]];
        LeavesOfConcat(items[..i], [items[i]]);
        assert LeavesOf([items[i]]) == Leaves(items[i]);
      }
      assert items[..|items|] == items;
    }
  }

  // ---------- the text of a message ----------

  function Join(parts: seq<string>, separator: string): string {
    if parts == [] then ""
    else if |parts| == 1 then parts[0]
    else parts[0] + separator + Join(parts[1..], separator)
  }

  /** The texts in order, with a separator between any two. */
  lemma {:induction false} JoinOfConcat(a: seq<string>, b: seq<string>, separator: string)
    requires a != [] && b != []
    ensures Join(a + b, separator) == Join(a, separator) + separator + Join(b, separator)
    decreases |a|
  {
    assert (a + b)[0] == a[0] && (a + b)[1..] == a[1..] + b;
    assert Join(a + b, separator) == a[0] + separator + Join(a[1..] + b, separator);
    if |a| == 1 {
      assert a[1..] + b == b;
    } else {
      JoinOfConcat(a[1..], b, separator);
      assert Join(a, separator) == a[0] + separator + Join(a[1..], separator);
    }
  }

  lemma JoinOfOne(s: string, separator: string)
    ensures Join([s], separator) == s
  {
  }

  function TreeText(n: Json): string {
    Join(Leaves(n), " ")
  }

  /** Objects are traversed; strings are parsed first, and are their own text when that fails. */
  function ExtractContentText(content: Json, parse: Parser): string {
    match content
    case Arr(_) => TreeText(content)
    case Obj(_, _, _) => TreeText(content)
    case Str(chars) =>
      (match parse(chars)
       case None => chars
       case Some(Str(inner)) => inner
       case Some(parsed) => TreeText(parsed))
    case _ => ""
  }

  /** Plain text that does not parse is its own text, and so is what is wrapped as a JSON string. */
  lemma PlainTextIsItself(text: string, chars: string, parse: Parser)
    requires parse(text).None? && parse(chars) == Some(Str(text))
    ensures ExtractContentText(Str(text), parse) == text
    ensures ExtractContentText(Str(chars), parse) == text
  {
  }

  /** Anything but text, an object or an array has no text, parsed or not. */
  lemma ScalarsAreSilent(n: Json, chars: string, parse: Parser)
    requires (n.Undefined? || n.Null? || n.Bool? || n.Num?) && parse(chars) == Some(n)
    ensures ExtractContentText(n, parse) == ExtractContentText(Str(chars), parse) == ""
  {
  }

  /** A document, given as a tree or as its JSON text, is the text of its leaves with spaces between. */
  lemma DocumentText(n: Json, chars: string, parse: Parser)
    requires (n.Obj? || n.Arr?) && parse(chars) == Some(n)
    ensures ExtractContentText(n, parse) == ExtractContentText(Str(chars), parse) == Join(TextsOf(PreOrder(n)), " ")
  {
    LeavesInPreOrder(n);
  }
}

module ChatHistory {
  import opened Wrappers
  import opened ContentText

  datatype Status = Success | Failure | AwaitingApproval

  /** An absent preview is the empty string: both are falsy. */
  datatype ToolCall = ToolCall(tool: string, status: Status, argsPreview: string, resultPreview: string)

  /** A message without a sender is not a bot's; absent tool calls are the empty list. */
  datatype Message = Message(content: Json, isBot: bool, toolCalls: seq<ToolCall>)

  datatype Role = UserRole | ModelRole
  datatype Turn = Turn(role: Role, text: string)

  /** How many bot turns with tool calls keep a recap, and how many characters of one are kept. */
  datatype Limits = Limits(lookback: nat, recapMaxChars: nat)

  const LIMITS := Limits(2, 300)
  const REDACTED := "(nội dung câu trả lời cũ đã ẩn khỏi ngữ cảnh này — KHÔNG được dùng làm dữ liệu; nếu câu hỏi hiện tại cần dữ liệu/số liệu cụ thể, PHẢI delegate lại để lấy MỚI)"
  const RECAP_PREFIX := "Lượt trước đã thử: "
  const SUMMARY_PREFIX := "(Tóm tắt ngữ cảnh cũ hơn, KHÔNG phải câu hỏi mới) Trước đó, cuộc trò chuyện đã đề cập: "

  // ---------- blank text ----------

  /** The characters that `trim` removes. */
  predicate IsSpace(c: char) {
    c in "\t\n\r \U{B}\U{C}\U{A0}\U{1680}\U{2028}\U{2029}\U{202F}\U{205F}\U{3000}\U{FEFF}" ||
      '\U{2000}' <= c <= '\U{200A}'
  }

  function TrimStart(s: string): string {
    if s != "" && IsSpace(s[0]) then TrimStart(s[1..]) else s
  }

  function TrimEnd(s: string): string {
    if s != "" && IsSpace(s[|s| - 1]) then TrimEnd(s[..|s| - 1]) else s
  }

  function Trim(s: string): string {
    TrimEnd(TrimStart(s))
  }

  predicate Blank(s: string) {
    |Trim(s)| == 0
  }

  /** A text counts as blank exactly when all its characters are white space. */
  lemma {:induction false} BlankIffAllSpace(s: string)
    ensures Blank(s) <==> forall i :: 0 <= i < |s| ==> IsSpace(s[i])
    decreases |s|
  {
    if s != "" {
      if IsSpace(s[0]) {
        BlankIffAllSpace(s[1..]);
        assert forall i :: 1 <= i < |s| ==> s[i] == s[1..][i - 1];
      } else {
        TrimEndKeepsHead(s);
      }
    }
  }

  lemma {:induction false} TrimEndKeepsHead(s: string)
    requires s != "" && !IsSpace(s[0])
    ensures |TrimEnd(s)| > 0
    decreases |s|
  {
    if IsSpace(s[|s| - 1]) {
      TrimEndKeepsHead(s[..|s| - 1]);
    }
  }

  lemma {:induction false} TrimStartCore(s: string) returns (i: nat)
    ensures i <= |s| && TrimStart(s) == s[i..] && (i < |s| ==> !IsSpace(s[i]))
    ensures forall k :: 0 <= k < i ==> IsSpace(s[k])
    decreases |s|
  {
    if s != "" && IsSpace(s[0]) {
      var k := TrimStartCore(s[1..]);
      i := k + 1;
      assert s[1..][k..] == s[i..];
      assert forall m :: 1 <= m < i ==> s[m] == s[1..][m - 1];
    } else {
      i := 0;
    }
  }

  lemma {:induction false} TrimEndCore(s: string) returns (j: nat)
    ensures j <= |s| && TrimEnd(s) == s[..j] && (j > 0 ==> !IsSpace(s[j - 1]))
    ensures forall k :: j <= k < |s| ==> IsSpace(s[k])
    decreases |s|
  {
    if s != "" && IsSpace(s[|s| - 1]) {
      var front := s[..|s| - 1];
      j := TrimEndCore(front);
      assert front[..j] == s[..j];
      forall k | j <= k < |s| ensures IsSpace(s[k]) {
        assert k < |front| ==> s[k] == front[k];
      }
    } else {
      j := |s|;
    }
  }

  /** Trimming leaves the part between the first and the last character that is not white space. */
  lemma TrimIsCore(s: string) returns (i: nat, j: nat)
    ensures i <= j <= |s| && Trim(s) == s[i..j]
    ensures forall k :: 0 <= k < i || j <= k < |s| ==> IsSpace(s[k])
    ensures i < j ==> !IsSpace(s[i]) && !IsSpace(s[j - 1])
  {
    i := TrimStartCore(s);
    var m := TrimEndCore(s[i..]);
    j := i + m;
    assert s[i..][..m] == s[i..j];
    assert forall k :: j <= k < |s| ==> s[k] == s[i..][k - i];
  }

  // ---------- tool-call recaps ----------

  function StatusLabel(s: Status): string {
    match s
    case Success => "THÀNH CÔNG"
    case Failure => "THẤT BẠI"
    case AwaitingApproval => "ĐANG CHỜ DUYỆT"
  }

  function DescribeCall(tc: ToolCall): string {
    tc.tool + (if tc.argsPreview != "" then " (" + tc.argsPreview + ")" else "") + " → " + StatusLabel(tc.status) +
    (if tc.resultPreview != "" then ": " + tc.resultPreview else "")
  }

  function Described(calls: seq<ToolCall>): string {
    Join(seq(|calls|, i requires 0 <= i < |calls| => DescribeCall(calls[i])), "; ")
  }

  /** One call: its tool, its arguments and result where given, and its status. */
  lemma OneCall(tool: string, args: string, result: string, status: Status)
    requires args != "" && result != ""
    ensures Described([ToolCall(tool, status, "", "")]) == tool + " → " + StatusLabel(status)
    ensures Described([ToolCall(tool, status, args, "")]) == tool + " (" + args + ") → " + StatusLabel(status)
    ensures Described([ToolCall(tool, status, "", result)]) == tool + " → " + StatusLabel(status) + ": " + result
    ensures Described([ToolCall(tool, status, args, result)]) ==
      tool + " (" + args + ") → " + StatusLabel(status) + ": " + result
  {
    DescribedOne(ToolCall(tool, status, "", ""));
    DescribedOne(ToolCall(tool, status, args, ""));
    DescribedOne(ToolCall(tool, status, "", result));
    DescribedOne(ToolCall(tool, status, args, result));
  }

  lemma StatusesOfCalls(tool: string)
    ensures Described([ToolCall(tool, Success, "", "")]) == tool + " → THÀNH CÔNG"
    ensures Described([ToolCall(tool, Failure, "", "")]) == tool + " → THẤT BẠI"
    ensures Described([ToolCall(tool, AwaitingApproval, "", "")]) == tool + " → ĐANG CHỜ DUYỆT"
  {
    DescribedOne(ToolCall(tool, Success, "", ""));
    DescribedOne(ToolCall(tool, Failure, "", ""));
    DescribedOne(ToolCall(tool, AwaitingApproval, "", ""));
  }

  lemma DescribedOne(tc: ToolCall)
    ensures Described([tc]) == DescribeCall(tc)
  {
    JoinOfOne(DescribeCall(tc), "; ");
  }

  /** Several calls are described one after the other. */
  lemma CallsInOrder(a: seq<ToolCall>, b: seq<ToolCall>)
    requires a != [] && b != []
    ensures Described(a + b) == Described(a) + "; " + Described(b)
  {
    var da := seq(|a|, i requires 0 <= i < |a| => DescribeCall(a[i]));
    var db := seq(|b|, i requires 0 <= i < |b| => DescribeCall(b[i]));
    assert seq(|a + b|, i requires 0 <= i < |a + b| => DescribeCall((a + b)[i])) == da + db;
    JoinOfConcat(da, db, "; ");
  }

  /** A recap shows the calls in full if they fit the cap, and otherwise as much of them as the cap allows. */
  lemma RecapShowsCalls(calls: seq<ToolCall>, maxChars: nat)
    ensures
      var recap, shown := BuildToolCallRecap(calls, maxChars), Described(calls);
      if |shown| <= maxChars then recap == "Lượt trước đã thử: " + shown
      else recap == "Lượt trước đã thử: " + shown[..maxChars] + "..."
  {
  }

  function BuildToolCallRecap(calls: seq<ToolCall>, maxChars: nat): (recap: string)
    ensures |RECAP_PREFIX| <= |recap| <= |RECAP_PREFIX| + maxChars + 3
  {
    var joined := Described(calls);
    RECAP_PREFIX + (if |joined| > maxChars then joined[..maxChars] + "..." else joined)
  }

  // ---------- the window ----------

  function Reverse<T>(s: seq<T>): (r: seq<T>)
    ensures |r| == |s|
    ensures forall i :: 0 <= i < |s| ==> r[i] == s[|s| - 1 - i]
  {
    if s == [] then [] else Reverse(s[1..]) + [s[0]]
  }

  predicate HasToolTrace(m: Message) {
    m.isBot && |m.toolCalls| > 0
  }

  /** Positions of the bot messages with tool calls, ascending. */
  function TracedFrom(ms: seq<Message>, i: nat): seq<nat>
    requires i <= |ms|
    decreases |ms| - i
  {
    if i == |ms| then [] else (if HasToolTrace(ms[i]) then [i] else []) + TracedFrom(ms, i + 1)
  }

  /** `slice(-n)`: the last n elements, and all of them for n = 0. */
  function SliceFromEnd<T>(s: seq<T>, n: nat): seq<T> {
    if n == 0 || |s| <= n then s else s[|s| - n..]
  }

  function RecapPositions(ms: seq<Message>, lookback: nat): seq<nat> {
    SliceFromEnd(TracedFrom(ms, 0), lookback)
  }

  function TurnOf(m: Message, recapped: bool, maxChars: nat, parse: Parser): Option<Turn> {
    var text := ExtractContentText(m.content, parse);
    if Blank(text) then None
    else if !m.isBot then Some(Turn(UserRole, text))
    else if recapped then Some(Turn(ModelRole, REDACTED + "\n" + BuildToolCallRecap(m.toolCalls, maxChars)))
    else Some(Turn(ModelRole, REDACTED))
  }

  /** `filter` after `map`: the values present from position i on. */
  function Somes<T>(options: seq<Option<T>>, i: nat): seq<T>
    requires i <= |options|
    decreases |options| - i
  {
    if i == |options| then []
    else (if options[i].Some? then [options[i].value] else []) + Somes(options, i + 1)
  }

  function TurnsOf(ms: seq<Message>, recaps: seq<nat>, maxChars: nat, parse: Parser): (turns: seq<Option<Turn>>)
    ensures |turns| == |ms|
  {
    seq(|ms|, i requires 0 <= i < |ms| => TurnOf(ms[i], i in recaps, maxChars, parse))
  }

  /** The window in chronological order; the message service returns it newest first. */
  function Window(messages: seq<Message>, limits: Limits, parse: Parser): seq<Turn> {
    var ms := Reverse(messages);
    Somes(TurnsOf(ms, RecapPositions(ms, limits.lookback), limits.recapMaxChars, parse), 0)
  }

  // ---------- the summary of what came before ----------

  /** Trimmed, non-empty texts of the people, in order. */
  function Snippets(ms: seq<Message>, parse: Parser): seq<string> {
    if ms == [] then []
    else
      var text := Trim(ExtractContentText(ms[0].content, parse));
      (if !ms[0].isBot && |text| > 0 then [text] else []) + Snippets(ms[1..], parse)
  }

  /** `older` is the batch before the window, None when fetching it failed; `summarize` stands for the model call. */
  function SummaryTurn(older: Option<seq<Message>>, parse: Parser, summarize: seq<string> -> string): Option<Turn> {
    if older.None? then None
    else
      var snippets := Snippets(Reverse(older.value), parse);
      if snippets == [] then None else Some(Turn(UserRole, SUMMARY_PREFIX + summarize(snippets)))
  }

  function WithSummary(messages: seq<Message>, hasMore: bool, older: Option<seq<Message>>, limits: Limits,
                       parse: Parser, summarize: seq<string> -> string): seq<Turn> {
    var summary := if hasMore then SummaryTurn(older, parse, summarize) else None;
    (if summary.Some? then [summary.value] else []) + Window(messages, limits, parse)
  }

  // ---------- the character budget ----------

  function TotalChars(turns: seq<Turn>): nat {
    if turns == [] then 0 else |turns[0].text| + TotalChars(turns[1..])
  }

  /** Dropping the oldest turn while the budget is exceeded and another turn remains. */
  function Capped(history: seq<Turn>, budget: Option<int>): seq<Turn> {
    if budget.None? || TotalChars(history) <= budget.value || |history| <= 1 then history
    else Capped(history[1..], budget)
  }

  method CapHistoryToCharBudget(history: seq<Turn>, charBudget: Option<int>) returns (kept: seq<Turn>)
    ensures kept == Capped(history, charBudget)
    ensures charBudget.None? ==> kept == history
    ensures history != [] ==> kept != [] && kept[|kept| - 1] == history[|history| - 1]
  {
    if charBudget.None? {
      return history;
    }
    kept := history;
    var used := 0;
    for i := 0 to |kept|
      invariant used + TotalChars(kept[i..]) == TotalChars(kept)
    {
      assert kept[i..][1..] == kept[i + 1..];
      used := used + |kept[i].text|;
    }
    while used > charBudget.value && |kept| > 1
      invariant used == TotalChars(kept)
      invariant Capped(kept, charBudget) == Capped(history, charBudget)
      invariant history != [] ==> kept != [] && kept[|kept| - 1] == history[|history| - 1]
      decreases |kept|
    {
      used := used - |kept[0].text|;
      kept := kept[1..];
    }
  }

  method GetRecentHistory(messages: seq<Message>, hasMore: bool, older: Option<seq<Message>>, charBudget: Option<int>,
                          parse: Parser, summarize: seq<string> -> string) returns (turns: seq<Turn>)
    ensures turns == Capped(WithSummary(messages, hasMore, older, Limits(2, 300), parse, summarize), charBudget)
    ensures charBudget.None? ==> turns == WithSummary(messages, hasMore, older, Limits(2, 300), parse, summarize)
  {
    var history := Window(messages, LIMITS, parse);
    if hasMore {
      var summaryTurn := SummaryTurn(older, parse, summarize);
      if summaryTurn.Some? {
        history := [summaryTurn.value] + history;
      }
    }
    assert history == WithSummary(messages, hasMore, older, LIMITS, parse, summarize);
    turns := CapHistoryToCharBudget(history, charBudget);
  }

  // ---------- the budget keeps the longest suffix ----------

  lemma {:induction false} TotalOfSuffix(turns: seq<Turn>, n: nat)
    requires n <= |turns|
    ensures TotalChars(turns[n..]) <= TotalChars(turns)
    decreases n
  {
    if n == 0 {
      assert turns[0..] == turns;
    } else {
      TotalOfSuffix(turns[1..], n - 1);
      assert turns[1..][n - 1..] == turns[n..];
    }
  }

  /** The total is the sum of the turns' lengths. */
  lemma {:induction false} TotalOfConcat(a: seq<Turn>, turn: Turn)
    ensures TotalChars(a + [turn]) == TotalChars(a) + |turn.text|
    decreases |a|
  {
    if a == [] {
      assert [] + [turn] == [turn] && [turn][1..] == [];
    } else {
      assert (a + [turn])[1..] == a[1..] + [turn];
      TotalOfConcat(a[1..], turn);
    }
  }

  /**
   The result is the suffix that starts at `n`, where `n` is the least position from which the text fits the
   budget, or the newest turn when not even that one fits. In particular a summary in front goes first.
   */
  lemma {:induction false} CappedIsLongestSuffix(history: seq<Turn>, budget: int) returns (n: nat)
    ensures n <= |history| && Capped(history, Some(budget)) == history[n..]
    ensures history != [] ==> n < |history|
    ensures TotalChars(history[n..]) <= budget || n + 1 >= |history|
    ensures forall m :: 0 <= m < n ==> TotalChars(history[m..]) > budget
    decreases |history|
  {
    if TotalChars(history) <= budget || |history| <= 1 {
      n := 0;
      assert history[0..] == history;
    } else {
      var k := CappedIsLongestSuffix(history[1..], budget);
      n := k + 1;
      assert history[1..][k..] == history[n..];
      forall m | 0 <= m < n ensures TotalChars(history[m..]) > budget {
        if m == 0 {
          assert history[0..] == history;
        } else {
          assert history[1..][m - 1..] == history[m..];
        }
      }
    }
  }

  /** No suffix that fits is longer than what is kept. */
  lemma KeptIsMaximal(history: seq<Turn>, budget: int, n: nat)
    requires n <= |history| && TotalChars(history[n..]) <= budget
    ensures |history| - n <= |Capped(history, Some(budget))|
  {
    var k := CappedIsLongestSuffix(history, budget);
  }

  // ---------- old answers do not leak ----------

  /** Two windows that differ only in what bots said, not in whether they said something. */
  ghost predicate SameButBotProse(a: seq<Message>, b: seq<Message>, parse: Parser) {
    && |a| == |b|
    && forall i :: 0 <= i < |a| ==>
         && a[i].isBot == b[i].isBot && a[i].toolCalls == b[i].toolCalls
         && (if a[i].isBot
             then Blank(ExtractContentText(a[i].content, parse)) == Blank(ExtractContentText(b[i].content, parse))
             else a[i].content == b[i].content)
  }

  /** For the older batch even blankness of bot text does not matter. */
  ghost predicate SamePeople(a: seq<Message>, b: seq<Message>) {
    && |a| == |b|
    && forall i :: 0 <= i < |a| ==> a[i].isBot == b[i].isBot && (!a[i].isBot ==> a[i].content == b[i].content)
  }

  lemma {:induction false} SameTraced(a: seq<Message>, b: seq<Message>, parse: Parser, i: nat)
    requires SameButBotProse(a, b, parse) && i <= |a|
    ensures TracedFrom(a, i) == TracedFrom(b, i)
    decreases |a| - i
  {
    if i < |a| {
      SameTraced(a, b, parse, i + 1);
    }
  }

  lemma SameTurns(a: seq<Message>, b: seq<Message>, recaps: seq<nat>, maxChars: nat, parse: Parser)
    requires SameButBotProse(a, b, parse)
    ensures TurnsOf(a, recaps, maxChars, parse) == TurnsOf(b, recaps, maxChars, parse)
  {
    forall i | 0 <= i < |a|
      ensures TurnOf(a[i], i in recaps, maxChars, parse) == TurnOf(b[i], i in recaps, maxChars, parse)
    {
    }
  }

  lemma {:induction false} SameSnippets(a: seq<Message>, b: seq<Message>, parse: Parser)
    requires SamePeople(a, b)
    ensures Snippets(a, parse) == Snippets(b, parse)
  {
    if a != [] {
      SameSnippets(a[1..], b[1..], parse);
    }
  }

  /** Whatever the budget and the summarizer, the history is independent of what bots have answered. */
  lemma HistoryIndependentOfBotProse(a: seq<Message>, b: seq<Message>, hasMore: bool, olderA: seq<Message>,
                                     olderB: seq<Message>, budget: Option<int>, limits: Limits, parse: Parser,
                                     summarize: seq<string> -> string)
    requires SameButBotProse(a, b, parse) && SamePeople(olderA, olderB)
    ensures Capped(WithSummary(a, hasMore, Some(olderA), limits, parse, summarize), budget) ==
            Capped(WithSummary(b, hasMore, Some(olderB), limits, parse, summarize), budget)
  {
    var ra, rb := Reverse(a), Reverse(b);
    assert SameButBotProse(ra, rb, parse);
    SameTraced(ra, rb, parse, 0);
    SameTurns(ra, rb, RecapPositions(ra, limits.lookback), limits.recapMaxChars, parse);
    assert SamePeople(Reverse(olderA), Reverse(olderB));
    SameSnippets(Reverse(olderA), Reverse(olderB), parse);
  }

  // ---------- which turns carry a recap ----------

  /** How many bot messages with tool calls come after position i. */
  ghost function TracedAfter(ms: seq<Message>, i: int): nat
    requires -1 <= i < |ms|
    decreases |ms| - i
  {
    if i + 1 == |ms| then 0 else (if HasToolTrace(ms[i + 1]) then 1 else 0) + TracedAfter(ms, i + 1)
  }

  lemma TracedFromStep(ms: seq<Message>, i: nat)
    requires i < |ms|
    ensures TracedFrom(ms, i) == (if HasToolTrace(ms[i]) then [i] else []) + TracedFrom(ms, i + 1)
    ensures TracedAfter(ms, i - 1) == (if HasToolTrace(ms[i]) then 1 else 0) + TracedAfter(ms, i)
  {
  }

  /** From position i on there is one entry per traced message. */
  lemma {:induction false} TracedLength(ms: seq<Message>, i: nat)
    requires i <= |ms|
    ensures |TracedFrom(ms, i)| == TracedAfter(ms, i - 1)
    decreases |ms| - i
  {
    if i < |ms| {
      TracedFromStep(ms, i);
      TracedLength(ms, i + 1);
    }
  }

  lemma {:induction false} TracedMembers(ms: seq<Message>, i: nat, p: nat)
    requires i <= |ms| && p < |ms|
    ensures p in TracedFrom(ms, i) <==> i <= p && HasToolTrace(ms[p])
    decreases |ms| - i
  {
    if i < |ms| {
      TracedFromStep(ms, i);
      TracedMembers(ms, i + 1, p);
    }
  }

  /** A traced message stands as far from the end of the list as traced messages follow it. */
  lemma {:induction false} TracedPosition(ms: seq<Message>, i: nat, p: nat)
    requires i <= p < |ms| && HasToolTrace(ms[p])
    ensures
      var k := |TracedFrom(ms, i)| - 1 - TracedAfter(ms, p);
      0 <= k < |TracedFrom(ms, i)| && TracedFrom(ms, i)[k] == p
    decreases |ms| - i
  {
    TracedFromStep(ms, i);
    if i == p {
      TracedLength(ms, i + 1);
    } else {
      TracedPosition(ms, i + 1, p);
    }
  }

  lemma {:induction false} TracedAscending(ms: seq<Message>, i: nat)
    requires i <= |ms|
    ensures forall k :: 0 <= k < |TracedFrom(ms, i)| ==> i <= TracedFrom(ms, i)[k] < |ms|
    ensures forall k, l :: 0 <= k < l < |TracedFrom(ms, i)| ==> TracedFrom(ms, i)[k] < TracedFrom(ms, i)[l]
    decreases |ms| - i
  {
    if i < |ms| {
      TracedAscending(ms, i + 1);
    }
  }

  /** In an ascending sequence, an element is within the last n exactly when its position is. */
  lemma InSliceFromEnd(s: seq<nat>, n: nat, k: nat)
    requires n > 0 && k < |s|
    requires forall a, b :: 0 <= a < b < |s| ==> s[a] < s[b]
    ensures s[k] in SliceFromEnd(s, n) <==> |s| - n <= k
  {
    if |s| > n {
      if |s| - n <= k {
        assert s[|s| - n..][k - (|s| - n)] == s[k];
      }
    }
  }

  /** One of the last `lookback` bot messages with tool calls; of all of them for a lookback of 0. */
  ghost predicate AmongLastTraced(ms: seq<Message>, p: nat, lookback: nat)
    requires p < |ms|
  {
    HasToolTrace(ms[p]) && (lookback == 0 || TracedAfter(ms, p) < lookback)
  }

  /** A message gets a recap exactly when it is among the last `lookback` bot messages with tool calls. */
  lemma RecapsOnLastTraced(ms: seq<Message>, lookback: nat, p: nat)
    requires p < |ms|
    ensures p in RecapPositions(ms, lookback) <==> AmongLastTraced(ms, p, lookback)
    ensures lookback >= 1 ==> |RecapPositions(ms, lookback)| <= lookback
  {
    var traced := TracedFrom(ms, 0);
    TracedMembers(ms, 0, p);
    TracedAscending(ms, 0);
    if HasToolTrace(ms[p]) {
      TracedPosition(ms, 0, p);
      if lookback > 0 {
        InSliceFromEnd(traced, lookback, |traced| - 1 - TracedAfter(ms, p));
      }
    } else {
      assert p !in traced;
    }
  }

  /** What a message becomes in the window, said without the machinery that computes it. */
  ghost function Shown(ms: seq<Message>, p: nat, limits: Limits, parse: Parser): Turn
    requires p < |ms|
  {
    if !ms[p].isBot then Turn(UserRole, ExtractContentText(ms[p].content, parse))
    else if AmongLastTraced(ms, p, limits.lookback) then
      Turn(ModelRole, REDACTED + "\n" + BuildToolCallRecap(ms[p].toolCalls, limits.recapMaxChars))
    else Turn(ModelRole, REDACTED)
  }

  ghost predicate Speaks(m: Message, parse: Parser) {
    !Blank(ExtractContentText(m.content, parse))
  }

  lemma TurnIsShown(ms: seq<Message>, p: nat, limits: Limits, parse: Parser)
    requires p < |ms|
    ensures TurnOf(ms[p], p in RecapPositions(ms, limits.lookback), limits.recapMaxChars, parse) ==
      if Speaks(ms[p], parse) then Some(Shown(ms, p, limits, parse)) else None
  {
    RecapsOnLastTraced(ms, limits.lookback, p);
  }

  /** `ps` are the positions from i on where there is a value, ascending, and `values` what is there. */
  ghost predicate Explains<T>(ps: seq<nat>, values: seq<T>, options: seq<Option<T>>, i: nat) {
    && |ps| == |values|
    && (forall k :: 0 <= k < |ps| ==> i <= ps[k] < |options| && options[ps[k]] == Some(values[k]))
    && (forall k, l :: 0 <= k < l < |ps| ==> ps[k] < ps[l])
    && (forall p :: i <= p < |options| && options[p].Some? ==> p in ps)
  }

  lemma ExplainsOneMore<T>(ps: seq<nat>, values: seq<T>, options: seq<Option<T>>, i: nat)
    requires i < |options| && options[i].Some? && Explains(ps, values, options, i + 1)
    ensures Explains([i] + ps, [options[i].value] + values, options, i)
  {
    var all, vals := [i] + ps, [options[i].value] + values;
    forall k | 0 <= k < |all| ensures i <= all[k] < |options| && options[all[k]] == Some(vals[k]) {
      if k > 0 {
        assert all[k] == ps[k - 1] && vals[k] == values[k - 1];
      }
    }
    forall k, l | 0 <= k < l < |all| ensures all[k] < all[l] {
      assert all[l] == ps[l - 1];
      if k > 0 {
        assert all[k] == ps[k - 1];
      }
    }
    forall p | i <= p < |options| && options[p].Some? ensures p in all {
      assert p == i || p in ps;
    }
  }

  lemma {:induction false} SomesExplained<T>(options: seq<Option<T>>, i: nat) returns (ps: seq<nat>)
    requires i <= |options|
    ensures Explains(ps, Somes(options, i), options, i)
    decreases |options| - i
  {
    ps := [];
    if i < |options| {
      ps := SomesExplained(options, i + 1);
      if options[i].Some? {
        ExplainsOneMore(ps, Somes(options, i + 1), options, i);
        ps := [i] + ps;
      } else {
        assert [] + Somes(options, i + 1) == Somes(options, i + 1);
      }
    }
  }

  /** The window has one turn per message with text, in chronological order; recaps sit on the last traced ones. */
  lemma WindowExplained(messages: seq<Message>, limits: Limits, parse: Parser) returns (ps: seq<nat>)
    ensures |ps| == |Window(messages, limits, parse)|
    ensures forall k, l :: 0 <= k < l < |ps| ==> ps[k] < ps[l]
    ensures forall p :: 0 <= p < |messages| ==> (p in ps <==> Speaks(Reverse(messages)[p], parse))
    ensures forall k :: 0 <= k < |ps| ==>
      ps[k] < |messages| && Window(messages, limits, parse)[k] == Shown(Reverse(messages), ps[k], limits, parse)
  {
    var ms := Reverse(messages);
    var options := TurnsOf(ms, RecapPositions(ms, limits.lookback), limits.recapMaxChars, parse);
    forall p | 0 <= p < |ms|
      ensures options[p] == if Speaks(ms[p], parse) then Some(Shown(ms, p, limits, parse)) else None
    {
      TurnIsShown(ms, p, limits, parse);
    }
    ps := SomesExplained(options, 0);
  }

  // ---------- what the summary says and where it stands ----------

  /** What a message of the older batch contributes to the summary. */
  ghost function SnippetOf(m: Message, parse: Parser): Option<string> {
    var text := ExtractContentText(m.content, parse);
    if m.isBot || Blank(text) then None else Some(Trim(text))
  }

  ghost function SnippetsAt(ms: seq<Message>, parse: Parser): (options: seq<Option<string>>)
    ensures |options| == |ms|
  {
    seq(|ms|, i requires 0 <= i < |ms| => SnippetOf(ms[i], parse))
  }

  lemma {:induction false} SnippetsAreSomes(ms: seq<Message>, parse: Parser, i: nat)
    requires i <= |ms|
    ensures Snippets(ms[i..], parse) == Somes(SnippetsAt(ms, parse), i)
    decreases |ms| - i
  {
    if i < |ms| {
      SnippetsAreSomes(ms, parse, i + 1);
      SnippetsStep(ms, parse, i);
    }
  }

  /** The summarizer gets the trimmed texts of exactly the people's messages with text, oldest first. */
  lemma SnippetsExplained(ms: seq<Message>, parse: Parser) returns (ps: seq<nat>)
    ensures Explains(ps, Snippets(ms, parse), SnippetsAt(ms, parse), 0)
  {
    SnippetsAreSomes(ms, parse, 0);
    assert ms[0..] == ms;
    ps := SomesExplained(SnippetsAt(ms, parse), 0);
  }

  lemma SnippetsStep(ms: seq<Message>, parse: Parser, i: nat)
    requires i < |ms|
    ensures
      var option, rest := SnippetOf(ms[i], parse), Snippets(ms[i + 1..], parse);
      Snippets(ms[i..], parse) == if option.Some? then [option.value] + rest else rest
  {
    assert ms[i..][0] == ms[i] && ms[i..][1..] == ms[i + 1..];
  }

  /** The summary turn, a user's, comes first; it is there exactly when older people's texts are known. */
  lemma SummaryComesFirst(messages: seq<Message>, hasMore: bool, older: Option<seq<Message>>, limits: Limits,
                          parse: Parser, summarize: seq<string> -> string)
    ensures
      var turns := WithSummary(messages, hasMore, older, limits, parse, summarize);
      var window := Window(messages, limits, parse);
      if hasMore && older.Some? && Snippets(Reverse(older.value), parse) != [] then
        && |turns| == |window| + 1 && turns[1..] == window && turns[0].role == UserRole
        && turns[0].text == "(Tóm tắt ngữ cảnh cũ hơn, KHÔNG phải câu hỏi mới) Trước đó, cuộc trò chuyện đã đề cập: " +
                            summarize(Snippets(Reverse(older.value), parse))
      else turns == window
  {
  }

  // ---------- how much the model's past can weigh ----------

  ghost function ModelChars(turns: seq<Turn>): nat {
    if turns == [] then 0 else (if turns[0].role.ModelRole? then |turns[0].text| else 0) + ModelChars(turns[1..])
  }

  ghost function ModelTurns(turns: seq<Turn>): nat {
    if turns == [] then 0 else (if turns[0].role.ModelRole? then 1 else 0) + ModelTurns(turns[1..])
  }

  /** A line break, the prefix, the capped calls and an ellipsis. */
  function RecapOverhead(maxChars: nat): nat {
    1 + |RECAP_PREFIX| + maxChars + 3
  }

  ghost function RecapsFrom(recaps: seq<nat>, i: nat): set<nat> {
    set p | p in recaps && i <= p
  }

  /** The characters of one turn, as far as the model wrote it. */
  lemma ModelTurnChars(m: Message, recapped: bool, maxChars: nat, parse: Parser)
    ensures
      var turn := TurnOf(m, recapped, maxChars, parse);
      turn.Some? && turn.value.role.ModelRole? ==>
        |turn.value.text| <= |REDACTED| + if recapped then RecapOverhead(maxChars) else 0
  {
  }

  lemma {:induction false} ModelCharsFrom(options: seq<Option<Turn>>, recaps: seq<nat>, i: nat, redacted: nat,
                                          overhead: nat)
    requires i <= |options|
    requires forall p :: 0 <= p < |options| ==>
      (options[p].Some? && options[p].value.role.ModelRole? ==>
         |options[p].value.text| <= redacted + if p in recaps then overhead else 0)
    ensures
      var turns := Somes(options, i);
      ModelChars(turns) <= ModelTurns(turns) * redacted + |RecapsFrom(recaps, i)| * overhead
    decreases |options| - i
  {
    if i < |options| {
      ModelCharsFrom(options, recaps, i + 1, redacted, overhead);
      RecapsStep(recaps, i);
      AddOneTurn(options[i], Somes(options, i + 1), |RecapsFrom(recaps, i + 1)|, i in recaps, redacted, overhead);
    }
  }

  lemma AddOneTurn(turn: Option<Turn>, rest: seq<Turn>, n: nat, recapped: bool, redacted: nat, overhead: nat)
    requires ModelChars(rest) <= ModelTurns(rest) * redacted + n * overhead
    requires turn.Some? && turn.value.role.ModelRole? ==>
      |turn.value.text| <= redacted + if recapped then overhead else 0
    ensures
      var turns := (if turn.Some? then [turn.value] else []) + rest;
      ModelChars(turns) <= ModelTurns(turns) * redacted + (n + if recapped then 1 else 0) * overhead
  {
    var turns := (if turn.Some? then [turn.value] else []) + rest;
    assert (n + 1) * overhead == n * overhead + overhead;
    assert (ModelTurns(rest) + 1) * redacted == ModelTurns(rest) * redacted + redacted;
    if turn.Some? {
      assert turns[0] == turn.value && turns[1..] == rest;
    } else {
      assert turns == rest;
    }
  }

  lemma RecapsStep(recaps: seq<nat>, i: nat)
    ensures |RecapsFrom(recaps, i)| == |RecapsFrom(recaps, i + 1)| + if i in recaps then 1 else 0
  {
    assert RecapsFrom(recaps, i) == RecapsFrom(recaps, i + 1) + (if i in recaps then {i} else {});
  }

  lemma {:induction false} DistinctAtMost(s: seq<nat>)
    ensures |RecapsFrom(s, 0)| <= |s|
    decreases |s|
  {
    if s == [] {
      assert RecapsFrom(s, 0) == {};
    } else {
      DistinctAtMost(s[1..]);
      assert RecapsFrom(s, 0) == RecapsFrom(s[1..], 0) + {s[0]};
    }
  }

  /** Whatever bots answered and however long their tool traces are, all model turns together stay within this. */
  lemma ModelCharsBounded(messages: seq<Message>, limits: Limits, parse: Parser)
    requires limits.lookback >= 1
    ensures
      var turns := Window(messages, limits, parse);
      ModelChars(turns) <= ModelTurns(turns) * |REDACTED| + limits.lookback * RecapOverhead(limits.recapMaxChars)
  {
    var ms := Reverse(messages);
    var recaps := RecapPositions(ms, limits.lookback);
    var redacted, overhead := |REDACTED|, RecapOverhead(limits.recapMaxChars);
    var options := TurnsOf(ms, recaps, limits.recapMaxChars, parse);
    forall p | 0 <= p < |options| && options[p].Some? && options[p].value.role.ModelRole?
      ensures |options[p].value.text| <= redacted + if p in recaps then overhead else 0
    {
      ModelTurnChars(ms[p], p in recaps, limits.recapMaxChars, parse);
    }
    ModelCharsFrom(options, recaps, 0, redacted, overhead);
    DistinctAtMost(recaps);
    assert |recaps| <= limits.lookback;
    Scale(|RecapsFrom(recaps, 0)|, limits.lookback, overhead);
  }

  lemma Scale(a: nat, b: nat, c: nat)
    requires a <= b
    ensures a * c <= b * c
  {
  }
}
