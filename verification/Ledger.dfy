/** The hook ledger of a session: one marker per hook in flight, one line per event the outbox accepted. */
module Ledger {
  import opened Events
  import opened Names

  datatype Marker = Marker(
    hookEvent: string,
    promptId: string,
    toolUseId: string,
    transcript: string,
    cwd: string,
    agentTranscript: string,
    at: nat)

  /** A marker file: torn by a hook killed mid-write, or whole. */
  datatype MarkerFile = Torn | Whole(marker: Marker)

  datatype Entry = Entry(kind: EventType, promptId: string, toolUseId: string, recordUuid: string)

  function EntryOf(e: Event): Entry
  {
    Entry(e.kind, e.promptId, e.toolUseId, e.recordUuid)
  }

  function EntriesOf(events: seq<Event>): (entries: seq<Entry>)
    ensures |entries| == |events|
    ensures forall i :: 0 <= i < |events| ==> entries[i] == EntryOf(events[i])
  {
    if events == [] then [] else EntriesOf(events[..|events| - 1]) + [EntryOf(events[|events| - 1])]
  }

  // -------------------------------------------------------------- marker names

  function MarkerName(at: nat, pid: nat): string
  {
    Decimal(at) + "-" + Decimal(pid) + ".json"
  }

  const MAX_INT64: nat := 0x7fff_ffff_ffff_ffff

  /** markerTime: the nanoseconds before the first dash; a name that does not parse is older than any cutoff. */
  function MarkerTime(name: string): Option<nat>
  {
    var nanos := UpTo(name, '-');
    if nanos != [] && Digits(nanos) && Value(nanos) <= MAX_INT64 then Some(Value(nanos)) else None
  }

  predicate Before(name: string, cutoff: nat)
  {
    match MarkerTime(name) case None => true case Some(t) => t < cutoff
  }

  /** A marker's name keeps the time it was written at, so a torn marker is still datable. */
  lemma MarkerNameKeepsTime(at: nat, pid: nat)
    requires at <= MAX_INT64
    ensures MarkerTime(MarkerName(at, pid)) == Some(at)
  {
    ValueOfDecimal(at);
    var rest := ['-'] + (Decimal(pid) + ".json");
    assert MarkerName(at, pid) == Decimal(at) + rest;
    assert '-' !in Decimal(at) by { assert Digits(Decimal(at)); }
    UpToAppend(Decimal(at), rest, '-');
    assert UpTo(rest, '-') == [];
    assert Decimal(at) + [] == Decimal(at);
  }

  // ------------------------------------------------------------------ what landed

  /** What the hooks would have captured of a transcript. */
  datatype Need =
    | PromptNeed(promptId: string)
    | CallNeed(toolUseId: string)
    | ResultNeed(toolUseId: string)
    | AnswerNeed(promptId: string, uuid: string)

  /** The ledger line vouches for the need. */
  predicate Meets(e: Entry, need: Need)
  {
    match need
    case PromptNeed(p) => e.kind == UserPrompt && p != "" && e.promptId == p
    case CallNeed(id) => e.kind == ToolCall && id != "" && e.toolUseId == id
    case ResultNeed(id) => (e.kind == ToolResult || e.kind == ToolFailed) && id != "" && e.toolUseId == id
    case AnswerNeed(p, uuid) =>
      (uuid != "" && e.recordUuid == uuid) || (e.kind == AssistantTurn && p != "" && e.promptId == p)
  }

  predicate Met(entries: seq<Entry>, need: Need)
  {
    exists e :: e in entries && Meets(e, need)
  }

  /** The ledger read back as sets. */
  datatype Captured = Captured(
    promptIds: set<string>,
    toolCallIds: set<string>,
    toolResultIds: set<string>,
    recordUuids: set<string>,
    assistantPrompts: set<string>,
    inflight: seq<Marker>)

  /** The sets say of every need whether a line of the ledger meets it. */
  predicate Have(c: Captured, need: Need)
  {
    match need
    case PromptNeed(p) => p in c.promptIds
    case CallNeed(id) => id in c.toolCallIds
    case ResultNeed(id) => id in c.toolResultIds
    case AnswerNeed(p, uuid) => uuid in c.recordUuids || p in c.assistantPrompts
  }

  ghost predicate Reads(c: Captured, entries: seq<Entry>)
  {
    forall need :: Have(c, need) <==> Met(entries, need)
  }

  function Noted(c: Captured, e: Entry): Captured
  {
    var c1 := if e.promptId != "" && e.kind == UserPrompt then c.(promptIds := c.promptIds + {e.promptId}) else c;
    var c2 := if e.promptId != "" && e.kind == AssistantTurn
              then c1.(assistantPrompts := c1.assistantPrompts + {e.promptId}) else c1;
    var c3 := if e.toolUseId != "" && e.kind == ToolCall
              then c2.(toolCallIds := c2.toolCallIds + {e.toolUseId}) else c2;
    var c4 := if e.toolUseId != "" && (e.kind == ToolResult || e.kind == ToolFailed)
              then c3.(toolResultIds := c3.toolResultIds + {e.toolUseId}) else c3;
    if e.recordUuid != "" then c4.(recordUuids := c4.recordUuids + {e.recordUuid}) else c4
  }

  lemma NotedHas(c: Captured, e: Entry, need: Need)
    ensures Have(Noted(c, e), need) <==> Have(c, need) || Meets(e, need)
  {
  }

  lemma MetAppend(a: seq<Entry>, b: seq<Entry>, need: Need)
    ensures Met(a + b, need) <==> Met(a, need) || Met(b, need)
  {
    hide Meets;
  }

  // ------------------------------------------------------------------- the files

  function MarkersOf(files: map<string, MarkerFile>, names: seq<string>): seq<Marker>
    requires forall n :: n in names ==> n in files
  {
    if names == [] then []
    else
      var k := |names| - 1;
      MarkersOf(files, names[..k]) + match files[names[k]] { case Torn => [] case Whole(m) => [m] }
  }

  function LinesOf(captured: map<string, seq<Entry>>, session: string): seq<Entry>
  {
    if session in captured then captured[session] else []
  }

  function FilesOf(inflight: map<string, map<string, MarkerFile>>, session: string): map<string, MarkerFile>
  {
    if session in inflight then inflight[session] else map[]
  }

  class Store {
    var captured: map<string, seq<Entry>>
    var inflight: map<string, map<string, MarkerFile>>

    constructor ()
      ensures captured == map[] && inflight == map[]
    {
      captured, inflight := map[], map[];
    }

    function Lines(session: string): seq<Entry>
      reads this`captured
    {
      LinesOf(captured, session)
    }

    function Files(session: string): map<string, MarkerFile>
      reads this`inflight
    {
      FilesOf(inflight, session)
    }

    /** Writes a marker before the hook does any work; the name is what removes it again. */
    method Inflight(session: string, m: Marker, pid: nat) returns (name: string)
      modifies this`inflight
      ensures name == MarkerName(m.at, pid)
      ensures inflight == old(inflight)[session := old(Files(session))[name := Whole(m)]]
    {
      name := MarkerName(m.at, pid);
      inflight := inflight[session := Files(session)[name := Whole(m)]];
    }

    method Remove(session: string, name: string)
      modifies this`inflight
      ensures Files(session) == old(Files(session)) - {name}
      ensures forall s :: s != session ==> Files(s) == old(Files(s))
    {
      if session in inflight { inflight := inflight[session := inflight[session] - {name}]; }
    }

    /** One write for all of a hook's lines. */
    method Append(session: string, entries: seq<Entry>)
      modifies this`captured
      ensures Lines(session) == old(Lines(session)) + entries
      ensures forall s :: s != session ==> Lines(s) == old(Lines(s))
    {
      if entries == [] {
        assert Lines(session) + [] == Lines(session);
        return;
      }
      captured := captured[session := Lines(session) + entries];
    }

    method Read(session: string) returns (c: Captured)
      ensures Reads(c, Lines(session))
      ensures c.inflight == MarkersOf(Files(session), Listing(Files(session).Keys))
    {
      hide Noted, Have, Meets;
      var entries := Lines(session);
      c := Captured({}, {}, {}, {}, {}, []);
      EmptyRead(c);
      for i := 0 to |entries|
        invariant Reads(c, entries[..i])
        invariant c.inflight == []
      {
        ghost var before := c;
        c := NoteLine(c, entries[i]);
        ReadStep(before, entries[..i], entries[i]);
        assert entries[..i + 1] == entries[..i] + [entries[i]];
      }
      assert entries[..|entries|] == entries;
      var files := Files(session);
      var names := Listing(files.Keys);
      for i := 0 to |names|
        invariant Reads(c, entries)
        invariant c.inflight == MarkersOf(files, names[..i])
      {
        assert names[..i + 1][..i] == names[..i];
        ghost var before := c;
        match files[names[i]] {
          case Torn =>
          case Whole(m) => c := c.(inflight := c.inflight + [m]);
        }
        InflightAside(before, c);
      }
      assert names[..|names|] == names;
    }

    /** Removes the session's markers written before the cutoff and no younger one. */
    method ClearInflightBefore(session: string, cutoff: nat)
      modifies this`inflight
      ensures Files(session) == Younger(old(Files(session)), cutoff)
      ensures forall s :: s != session ==> Files(s) == old(Files(s))
    {
      var left, kept := Keep(Files(session), cutoff);
      if kept == 0 {
        inflight := inflight - {session};
      } else {
        inflight := inflight[session := left];
      }
    }
  }

  /** The marker files not written before the cutoff. */
  function Younger(files: map<string, MarkerFile>, cutoff: nat): map<string, MarkerFile>
  {
    map n | n in files && !Before(n, cutoff) :: files[n]
  }

  /** What is left once the names seen so far have been looked at. */
  ghost function Swept(files: map<string, MarkerFile>, seen: seq<string>, cutoff: nat): map<string, MarkerFile>
  {
    map n | n in files && !(n in seen && Before(n, cutoff)) :: files[n]
  }

  lemma SweptStep(files: map<string, MarkerFile>, seen: seq<string>, name: string, cutoff: nat)
    ensures Swept(files, [], cutoff) == files
    ensures Swept(files, seen + [name], cutoff)
            == if Before(name, cutoff) then Swept(files, seen, cutoff) - {name} else Swept(files, seen, cutoff)
  {
    hide Before;
  }

  lemma SweptAll(files: map<string, MarkerFile>, cutoff: nat)
    ensures Swept(files, Listing(files.Keys), cutoff) == Younger(files, cutoff)
  {
    hide Before, Listing;
  }

  /** The loop over the directory: what is left, and how many. */
  method Keep(files: map<string, MarkerFile>, cutoff: nat) returns (left: map<string, MarkerFile>, kept: nat)
    ensures left == Younger(files, cutoff)
    ensures kept == 0 ==> left == map[]
  {
    hide Before, Swept, Listing, Younger;
    var names := Listing(files.Keys);
    left, kept := files, 0;
    SweptStep(files, [], "", cutoff);
    for i := 0 to |names|
      invariant left == Swept(files, names[..i], cutoff)
      invariant kept == 0 ==> forall k :: 0 <= k < i ==> Before(names[k], cutoff)
    {
      assert names[..i + 1] == names[..i] + [names[i]];
      SweptStep(files, names[..i], names[i], cutoff);
      if Before(names[i], cutoff) {
        left := left - {names[i]};
      } else {
        kept := kept + 1;
      }
    }
    assert names[..|names|] == names;
    SweptAll(files, cutoff);
    if kept == 0 { NoneYounger(files, names, cutoff); }
  }

  lemma NoneYounger(files: map<string, MarkerFile>, names: seq<string>, cutoff: nat)
    requires names == Listing(files.Keys) && forall k :: 0 <= k < |names| ==> Before(names[k], cutoff)
    ensures Younger(files, cutoff) == map[]
  {
    hide Before, Listing;
    forall n | n in files ensures Before(n, cutoff) { assert n in names; }
  }

  /** One line of the ledger, as the two switches take it. */
  method NoteLine(c: Captured, e: Entry) returns (r: Captured)
    ensures r == Noted(c, e)
  {
    r := c;
    if e.promptId != "" {
      match e.kind {
        case UserPrompt => r := r.(promptIds := r.promptIds + {e.promptId});
        case AssistantTurn => r := r.(assistantPrompts := r.assistantPrompts + {e.promptId});
        case _ =>
      }
    }
    if e.toolUseId != "" {
      match e.kind {
        case ToolCall => r := r.(toolCallIds := r.toolCallIds + {e.toolUseId});
        case ToolResult => r := r.(toolResultIds := r.toolResultIds + {e.toolUseId});
        case ToolFailed => r := r.(toolResultIds := r.toolResultIds + {e.toolUseId});
        case _ =>
      }
    }
    if e.recordUuid != "" { r := r.(recordUuids := r.recordUuids + {e.recordUuid}); }
  }

  /**
   * hookRun.capture: marker, outbox, ledger, clear. The outbox takes at most room of the hook's
   * events; a hook it fails keeps its marker and leaves no ledger line, whatever it got out. A
   * marker or a ledger line that cannot be written stops nothing.
   */
  method CaptureHook(ledger: Store, session: string, m: Marker, pid: nat, events: seq<Event>, room: nat,
                     markerOk: bool, ledgerOk: bool)
    returns (ok: bool, put: seq<Event>)
    modifies ledger
    ensures ok <==> |events| <= room
    ensures put == if ok then events else events[..room]
    ensures ledger.Lines(session) == old(ledger.Lines(session)) + EntriesOf(if ok && ledgerOk then events else [])
    ensures
      var marked := old(ledger.Files(session))[MarkerName(m.at, pid) := Whole(m)];
      ledger.Files(session)
      == if !markerOk then old(ledger.Files(session)) else if ok then marked - {MarkerName(m.at, pid)} else marked
    ensures forall s :: s != session ==>
            ledger.Lines(s) == old(ledger.Lines(s)) && ledger.Files(s) == old(ledger.Files(s))
  {
    hide MarkerName;
    var name := "";
    if markerOk { name := ledger.Inflight(session, m, pid); }
    assert old(ledger.Lines(session)) + [] == old(ledger.Lines(session));
    put := [];
    for i := 0 to |events|
      invariant put == events[..i] && i <= room
      invariant ledger.captured == old(ledger.captured)
      invariant ledger.inflight
                == if markerOk then old(ledger.inflight)[session := old(ledger.Files(session))[name := Whole(m)]]
                                   else old(ledger.inflight)
    {
      if |put| == room { return false, put; }
      put := put + [events[i]];
    }
    if ledgerOk { ledger.Append(session, EntriesOf(put)); }
    if markerOk { ledger.Remove(session, name); }
    return true, put;
  }

  lemma EmptyRead(c: Captured)
    requires c == Captured({}, {}, {}, {}, {}, [])
    ensures Reads(c, [])
  {
  }

  lemma ReadStep(c: Captured, entries: seq<Entry>, e: Entry)
    requires Reads(c, entries)
    ensures Reads(Noted(c, e), entries + [e])
    ensures Noted(c, e).inflight == c.inflight
  {
    forall need ensures Have(Noted(c, e), need) <==> Met(entries + [e], need) {
      NotedHas(c, e, need);
      MetAppend(entries, [e], need);
      assert e in [e];
    }
  }

  lemma InflightAside(c: Captured, d: Captured)
    requires d == c.(inflight := d.inflight)
    ensures forall entries :: Reads(c, entries) ==> Reads(d, entries)
  {
  }
}
