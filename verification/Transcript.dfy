/** Transcript records, and the events one record produces. */
module Transcript {
  import opened Events
  import opened Names
  import Utf8

  datatype Block =
    | Text(text: string)
    | Thinking(text: string)
    | ToolUse(id: string, input: string)
    | ToolOutput(toolUseId: string, isError: bool, content: string)
    | OtherBlock

  /** One parsed transcript line. A missing field reads as its zero value. */
  datatype Record = Record(
    kind: string,
    sessionId: string,
    /** None when the line has no timestamp that parses. */
    timestamp: Option<Time>,
    uuid: string,
    promptId: string,
    agentId: string,
    isSidechain: bool,
    isMeta: bool,
    isCompactSummary: bool,
    /** logicalParentUuid, the compaction marker. */
    parentMark: string,
    requestId: string,
    cwd: string,
    gitBranch: string,
    version: string,
    /** message.content when it is a string, else empty. */
    text: string,
    /** message.content when it is an array, else empty. */
    blocks: seq<Block>,
    /** What message.usage yields: None for synthetic rows and all-zero usage. */
    usage: Option<Usage>,
    hasToolUseResult: bool,
    raw: string)

  datatype Line = BadJson | Good(rec: Record)

  /** Record types that carry no session content. */
  const IGNORED: set<string> := {
    "attachment", "queue-operation", "last-prompt", "summary", "mode", "permission-mode", "bridge-session",
    "ai-title", "agent-name", "custom-title", "file-history-snapshot", "file-history-delta", "atis-latch",
    "pr-link", "worktree-state", "relocated", "frame-link", "history-suppression", "artifact-autoreact-ledger",
    "artifact-comment-monitor", "cost-state", "progress"}

  predicate Ignored(kind: string)
  {
    kind in IGNORED
  }

  predicate IsContentType(kind: string)
  {
    kind == "user" || kind == "assistant" || kind == "system"
  }

  const SUMMARY_PREFIX := "This session is being continued from a previous conversation"

  predicate Blank(c: char)
  {
    c == ' ' || '\t' <= c <= '\r'
  }

  function TrimLeft(s: string): string
  {
    if s != [] && Blank(s[0]) then TrimLeft(s[1..]) else s
  }

  /** IsCompactSummaryText. */
  predicate OpensLikeSummary(s: string)
  {
    SUMMARY_PREFIX <= TrimLeft(s)
  }

  predicate HasToolResult(blocks: seq<Block>)
  {
    exists b :: b in blocks && b.ToolOutput?
  }

  /** The non-empty text blocks joined with newlines. */
  function JoinedText(blocks: seq<Block>): string
  {
    if blocks == [] then ""
    else
      var before := JoinedText(blocks[..|blocks| - 1]);
      var b := blocks[|blocks| - 1];
      if b.Text? && b.text != "" then (if before != "" then before + "\n" + b.text else b.text) else before
  }

  function Prose(r: Record): string
  {
    if r.text != "" then r.text else JoinedText(r.blocks)
  }

  predicate HasProse(r: Record)
  {
    r.text != "" || exists b :: b in r.blocks && (b.Text? || b.Thinking?) && b.text != ""
  }

  /** A record that builds a compaction and nothing else. */
  predicate IsCompaction(r: Record)
  {
    r.isCompactSummary || (r.kind == "user" && !HasToolResult(r.blocks) && OpensLikeSummary(Prose(r)))
  }

  function TrimRight(s: string): string
  {
    if s != [] && Blank(s[|s| - 1]) then TrimRight(s[..|s| - 1]) else s
  }

  /** strings.TrimSpace, for the blanks of ASCII. */
  function TrimSpace(s: string): string
  {
    TrimRight(TrimLeft(s))
  }

  /** What follows the first occurrence of mark, if there is one. */
  function AfterMark(s: string, mark: string): Option<string>
  {
    if mark <= s then Some(s[|mark|..]) else if s == [] then None else AfterMark(s[1..], mark)
  }

  /** What stands before the first occurrence of mark, if there is one. */
  function BeforeMark(s: string, mark: string): Option<string>
  {
    if mark <= s then Some("")
    else if s == [] then None
    else match BeforeMark(s[1..], mark) case None => None case Some(r) => Some([s[0]] + r)
  }

  function Between(s: string, open: string, close: string): string
  {
    match AfterMark(s, open)
    case None => ""
    case Some(rest) => match BeforeMark(rest, close) case None => "" case Some(r) => r
  }

  /** slashCommandText: the words inside a slash-command wrapper, or the text itself when there is none. */
  function Unwrapped(s: string): string
  {
    var t := TrimSpace(s);
    var args := TrimSpace(Between(t, "<command-args>", "</command-args>"));
    var name := TrimSpace(Between(t, "<command-name>", "</command-name>"));
    if !("<command-message>" <= t || "<command-name>" <= t) then s
    else if args != "" then args
    else if name == "" then s
    else if name[0] == '/' then name
    else "/" + name
  }

  /** One event of a record, with the discriminator that keeps its id apart from its siblings'. */
  datatype Part = Part(kind: EventType, toolUseId: string, usage: Option<Usage>, text: string, disc: string)

  const MAX_TOOL_OUTPUT: nat := 512 * 1024

  function UsageOf(r: Record): Option<Usage>
  {
    match r.usage
    case None => None
    case Some(u) => Some(u.(requestId := r.requestId))
  }

  function TurnPart(r: Record): Part
  {
    if r.kind == "user" then Part(UserPrompt, "", UsageOf(r), Unwrapped(Prose(r)), "turn")
    else Part(AssistantTurn, "", UsageOf(r), Prose(r), "turn")
  }

  function TurnParts(r: Record): seq<Part>
  {
    if HasProse(r) || r.usage.Some? then [TurnPart(r)] else []
  }

  /** The part of the block at index i, if it has one: index and id keep sibling blocks apart. */
  function BlockPart(b: Block, i: nat): seq<Part>
  {
    match b
    case ToolUse(id, input) => [Part(ToolCall, id, None, input, "tool_use:" + Decimal(i) + ":" + id)]
    case ToolOutput(id, isError, content) =>
      [Part(if isError then ToolFailed else ToolResult, id, None, Utf8.Capped(content, MAX_TOOL_OUTPUT).0,
            "tool_result:" + Decimal(i) + ":" + id)]
    case _ => []
  }

  function BlockParts(blocks: seq<Block>): seq<Part>
  {
    if blocks == [] then []
    else BlockParts(blocks[..|blocks| - 1]) + BlockPart(blocks[|blocks| - 1], |blocks| - 1)
  }

  /** build: what a record produces, in the order it is numbered. */
  function Build(r: Record): seq<Part>
  {
    if IsCompaction(r) then [Part(Compaction, "", None, Prose(r), "compaction")]
    else TurnParts(r) + BlockParts(r.blocks)
  }

  lemma {:induction false} BlockPartsCarryNoUsage(blocks: seq<Block>)
    ensures forall p :: p in BlockParts(blocks) ==> p.usage == None && p.kind in {ToolCall, ToolResult, ToolFailed}
  {
    if blocks != [] { BlockPartsCarryNoUsage(blocks[..|blocks| - 1]); }
  }

  /** A record's usage is billed to exactly one of its events, its turn; a compaction's to none. */
  lemma UsageBilledOnce(r: Record)
    ensures !IsCompaction(r) && r.usage.Some? ==>
              && Build(r) != [] && Build(r)[0].usage == UsageOf(r)
              && forall i :: 0 < i < |Build(r)| ==> Build(r)[i].usage == None
    ensures IsCompaction(r) || r.usage == None ==> forall p :: p in Build(r) ==> p.usage == None
  {
    BlockPartsCarryNoUsage(r.blocks);
    forall i | |TurnParts(r)| <= i < |Build(r)| && !IsCompaction(r) ensures Build(r)[i].usage == None {
      assert Build(r)[i] == BlockParts(r.blocks)[i - |TurnParts(r)|];
    }
  }

  /** The record calls this tool. */
  predicate Calls(blocks: seq<Block>, id: string)
  {
    exists b :: b in blocks && b.ToolUse? && b.id == id
  }

  /** The record answers this call. */
  predicate Answers(blocks: seq<Block>, id: string)
  {
    exists b :: b in blocks && b.ToolOutput? && b.toolUseId == id
  }

  predicate BuildsCall(parts: seq<Part>, id: string)
  {
    exists p :: p in parts && p.kind == ToolCall && p.toolUseId == id
  }

  predicate BuildsAnswer(parts: seq<Part>, id: string)
  {
    exists p :: p in parts && p.kind in {ToolResult, ToolFailed} && p.toolUseId == id
  }

  lemma PartsJoin(a: seq<Part>, b: seq<Part>, id: string)
    ensures BuildsCall(a + b, id) <==> BuildsCall(a, id) || BuildsCall(b, id)
    ensures BuildsAnswer(a + b, id) <==> BuildsAnswer(a, id) || BuildsAnswer(b, id)
  {
  }

  lemma PartOfBlock(b: Block, i: nat, id: string)
    ensures BuildsCall(BlockPart(b, i), id) <==> b.ToolUse? && b.id == id
    ensures BuildsAnswer(BlockPart(b, i), id) <==> b.ToolOutput? && b.toolUseId == id
  {
    hide Decimal, Utf8.Capped;
    var parts := BlockPart(b, i);
    assert |parts| == 1 ==> parts[0] in parts;
  }

  /** Every call and every answer becomes an event under its own tool id, and no others do. */
  lemma {:induction false} BlockPartsOf(blocks: seq<Block>, id: string)
    ensures BuildsCall(BlockParts(blocks), id) <==> Calls(blocks, id)
    ensures BuildsAnswer(BlockParts(blocks), id) <==> Answers(blocks, id)
  {
    if blocks != [] {
      hide BlockPart, BuildsCall, BuildsAnswer;
      var front, last := blocks[..|blocks| - 1], blocks[|blocks| - 1];
      BlockPartsOf(front, id);
      assert blocks == front + [last];
      PartOfBlock(last, |blocks| - 1, id);
      PartsJoin(BlockParts(front), BlockPart(last, |blocks| - 1), id);
    } else {
      assert BlockParts(blocks) == [];
    }
  }

  // ---------------------------------------------------------------- anchors

  /** What a content record can be recognised by on the other capture path. */
  datatype Anchor = Anchor(
    kind: string,
    uuid: string,
    promptId: string,
    toolUseIds: seq<string>,
    isToolResult: bool,
    isMeta: bool)

  function ToolIds(blocks: seq<Block>): seq<string>
  {
    if blocks == [] then []
    else
      var before := ToolIds(blocks[..|blocks| - 1]);
      match blocks[|blocks| - 1]
      case ToolUse(id, _) => before + [id]
      case ToolOutput(id, _, _) => before + [id]
      case _ => before
  }

  /** anchorOf. */
  function AnchorOf(r: Record): Anchor
  {
    Anchor(r.kind, r.uuid, r.promptId, ToolIds(r.blocks), HasToolResult(r.blocks), r.isMeta)
  }

  /** A line Anchors lists. */
  predicate Anchored(l: Line)
  {
    l.Good? && !Ignored(l.rec.kind) && l.rec.sessionId != "" && IsContentType(l.rec.kind)
  }

  /** Anchors: the content records of a file, in file order. */
  function Anchors(lines: seq<Line>): seq<Anchor>
  {
    if lines == [] then []
    else
      var before := Anchors(lines[..|lines| - 1]);
      if Anchored(lines[|lines| - 1]) then before + [AnchorOf(lines[|lines| - 1].rec)] else before
  }

  lemma BlockPartsStart()
    ensures BlockParts([]) == []
  {
  }

  lemma BlockPartsStep(blocks: seq<Block>, i: nat)
    requires i < |blocks|
    ensures BlockParts(blocks[..i + 1]) == BlockParts(blocks[..i]) + BlockPart(blocks[i], i)
  {
    hide BlockPart;
    assert blocks[..i + 1][..i] == blocks[..i];
  }

  // ------------------------------------------------------------ the builder

  /** build as the walker runs it: the usage is handed to the first event that takes it. */
  method BuildRecord(r: Record) returns (out: seq<Part>)
    ensures out == Build(r)
  {
    hide IsCompaction, HasProse, Prose, Unwrapped, Decimal, Utf8.Capped, BlockParts;
    if IsCompaction(r) {
      return [Part(Compaction, "", None, Prose(r), "compaction")];
    }
    var u := UsageOf(r);
    out := [];
    if HasProse(r) || u.Some? {
      var text := Prose(r);
      if r.kind == "user" { text := Unwrapped(text); }
      out := [Part(if r.kind == "user" then UserPrompt else AssistantTurn, "", u, text, "turn")];
      u := None;
    }
    BlockPartsStart();
    for i := 0 to |r.blocks|
      invariant u == None
      invariant out == TurnParts(r) + BlockParts(r.blocks[..i])
    {
      BlockPartsStep(r.blocks, i);
      match r.blocks[i] {
        case ToolUse(id, input) =>
          out := out + [Part(ToolCall, id, u, input, "tool_use:" + Decimal(i) + ":" + id)];
          u := None;
        case ToolOutput(id, isError, content) =>
          var body, _ := Utf8.CapText(content, MAX_TOOL_OUTPUT);
          out := out + [Part(if isError then ToolFailed else ToolResult, id, None, body,
                             "tool_result:" + Decimal(i) + ":" + id)];
        case _ =>
      }
    }
    assert r.blocks[..|r.blocks|] == r.blocks;
  }
}
