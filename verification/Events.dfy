/** The canonical event, its token accounting and the outbox item that carries it. */
module Events {

  datatype Option<+T> = None | Some(value: T)

  datatype EventType =
    | Untyped
    | SessionStarted
    | SessionEnded
    | UserPrompt
    | AssistantTurn
    | ToolCall
    | ToolResult
    | ToolFailed
    | FileChanged
    | SubagentStart
    | SubagentEnd
    | Compaction
    | Artifact

  datatype Usage = Usage(
    input: int,
    output: int,
    cacheRead: int,
    cacheCreation: int,
    ephemeral5m: int,
    ephemeral1h: int,
    requestId: string,
    messageId: string)

  const NO_USAGE := Usage(0, 0, 0, 0, 0, 0, "", "")

  /** Times count from Go's zero time, so 0 is the zero time and dates before it are negative. */
  type Time = int

  const ZERO_TIME: Time := 0

  datatype Event = Event(
    id: string,
    captureVersion: nat,
    source: string,
    origin: string,
    kind: EventType,
    sessionId: string,
    parentSessionId: string,
    agentId: string,
    promptId: string,
    toolUseId: string,
    recordUuid: string,
    parentRecordUuid: string,
    forkPrefixSeq: int,
    seqNo: nat,
    occurredAt: Time,
    cwd: string,
    gitBranch: string,
    harnessVersion: string,
    usage: Option<Usage>,
    text: string,
    raw: string,
    redactions: map<string, nat>)

  /** What an item's payload turns out to be when the server reads it. */
  datatype Payload = Blank | Malformed | Carries(event: Event)

  datatype Item = Item(
    id: string,
    sessionId: string,
    attempts: nat,
    undecided: nat,
    payload: Payload)
}
