/**
 * Transcript recovery: the records the hooks lost are the ones whose needs no ledger line
 * meets; walking exactly those and writing down what they build leaves nothing lost.
 */
module Recovery {
  import opened Events
  import opened Transcript
  import opened Walker
  import opened Ledger

  // ------------------------------------------------------- what a record needs

  /** A human record that opens a turn. */
  predicate Opens(a: Anchor)
  {
    a.kind == "user" && !a.isToolResult && !a.isMeta && a.promptId != ""
  }

  /** The turn in progress before the anchor at i. */
  function TurnAt(anchors: seq<Anchor>, i: nat): string
    requires i <= |anchors|
  {
    if i == 0 then "" else if Opens(anchors[i - 1]) then anchors[i - 1].promptId else TurnAt(anchors, i - 1)
  }

  /** An assistant record of turn t that calls no tool. */
  predicate Works(anchors: seq<Anchor>, i: nat, t: string)
    requires i < |anchors|
  {
    anchors[i].kind == "assistant" && t != "" && TurnAt(anchors, i) == t && anchors[i].toolUseIds == []
  }

  /** The last such record of its turn: the one a Stop hook captures. */
  predicate IsAnswer(anchors: seq<Anchor>, i: nat, t: string)
    requires i < |anchors|
  {
    Works(anchors, i, t) && forall j :: i < j < |anchors| ==> !Works(anchors, j, t)
  }

  predicate CarriesTool(a: Anchor, need: Need)
  {
    match need
    case CallNeed(id) => a.kind == "assistant" && id != "" && id in a.toolUseIds
    case ResultNeed(id) => a.kind == "user" && a.isToolResult && id != "" && id in a.toolUseIds
    case _ => false
  }

  /** What the hooks would have captured of the record at i. */
  predicate Requires(anchors: seq<Anchor>, i: nat, need: Need)
    requires i < |anchors|
  {
    match need
    case PromptNeed(p) => Opens(anchors[i]) && anchors[i].promptId == p
    case AnswerNeed(p, uuid) => IsAnswer(anchors, i, p) && anchors[i].uuid == uuid
    case _ => CarriesTool(anchors[i], need)
  }

  /** A record under uuid carries the need. */
  ghost predicate Carried(anchors: seq<Anchor>, uuid: string, need: Need)
  {
    exists i :: 0 <= i < |anchors| && anchors[i].uuid == uuid && Requires(anchors, i, need)
  }

  ghost predicate ToolCarried(anchors: seq<Anchor>, uuid: string, need: Need)
  {
    exists i :: 0 <= i < |anchors| && anchors[i].uuid == uuid && CarriesTool(anchors[i], need)
  }

  // ------------------------------------------------------------------- the diff

  /** The records under the accepted uuids are exactly those with a tool need the ledger lacks. */
  ghost predicate AcceptsTools(anchors: seq<Anchor>, have: Captured, accepted: set<string>)
  {
    forall uuid :: uuid in accepted <==> exists need :: ToolCarried(anchors, uuid, need) && !Have(have, need)
  }

  ghost predicate AcceptsLost(anchors: seq<Anchor>, have: Captured, accepted: set<string>)
  {
    forall uuid :: uuid in accepted <==> exists need :: Carried(anchors, uuid, need) && !Have(have, need)
  }

  /** The ids of one record that did not land. */
  predicate LacksTool(a: Anchor, have: Captured)
  {
    exists k :: 0 <= k < |a.toolUseIds| && a.toolUseIds[k] != ""
                && !Have(have, if a.kind == "assistant" then CallNeed(a.toolUseIds[k]) else ResultNeed(a.toolUseIds[k]))
                && (a.kind == "assistant" || (a.kind == "user" && a.isToolResult))
  }

  lemma LacksToolIsUnmet(a: Anchor, have: Captured)
    ensures LacksTool(a, have) <==> exists need :: CarriesTool(a, need) && !Have(have, need)
  {
    if LacksTool(a, have) {
      var k :| 0 <= k < |a.toolUseIds| && a.toolUseIds[k] != ""
               && !Have(have, if a.kind == "assistant" then CallNeed(a.toolUseIds[k]) else ResultNeed(a.toolUseIds[k]))
               && (a.kind == "assistant" || (a.kind == "user" && a.isToolResult));
      var need := if a.kind == "assistant" then CallNeed(a.toolUseIds[k]) else ResultNeed(a.toolUseIds[k]);
      assert CarriesTool(a, need);
    }
    if need :| CarriesTool(a, need) && !Have(have, need) {
      var k :| 0 <= k < |a.toolUseIds| && a.toolUseIds[k] == need.toolUseId;
      assert LacksTool(a, have);
    }
  }

  ghost predicate ToolLostAt(anchors: seq<Anchor>, have: Captured, uuid: string, n: nat)
    requires n <= |anchors|
  {
    exists i :: 0 <= i < n && anchors[i].uuid == uuid && LacksTool(anchors[i], have)
  }

  lemma ToolLostIsUnmet(anchors: seq<Anchor>, have: Captured, uuid: string)
    ensures ToolLostAt(anchors, have, uuid, |anchors|)
       <==> exists need :: ToolCarried(anchors, uuid, need) && !Have(have, need)
  {
    hide LacksTool, CarriesTool, Have;
    if ToolLostAt(anchors, have, uuid, |anchors|) {
      var i :| 0 <= i < |anchors| && anchors[i].uuid == uuid && LacksTool(anchors[i], have);
      LacksToolIsUnmet(anchors[i], have);
      var need :| CarriesTool(anchors[i], need) && !Have(have, need);
      assert ToolCarried(anchors, uuid, need);
    }
    if need :| ToolCarried(anchors, uuid, need) && !Have(have, need) {
      var i :| 0 <= i < |anchors| && anchors[i].uuid == uuid && CarriesTool(anchors[i], need);
      LacksToolIsUnmet(anchors[i], have);
    }
  }

  method MissingToolRecords(anchors: seq<Anchor>, have: Captured) returns (accepted: set<string>)
    ensures AcceptsTools(anchors, have, accepted)
  {
    accepted := {};
    for i := 0 to |anchors|
      invariant forall uuid :: uuid in accepted <==> ToolLostAt(anchors, have, uuid, i)
    {
      ghost var was := accepted;
      var a := anchors[i];
      var lacks := false;
      if a.kind == "user" && a.isToolResult {
        lacks := AnyLacking(a.toolUseIds, have.toolResultIds);
      } else if a.kind == "assistant" {
        lacks := AnyLacking(a.toolUseIds, have.toolCallIds);
      }
      assert lacks == LacksTool(a, have);
      if lacks { accepted := accepted + {a.uuid}; }
      forall uuid ensures uuid in accepted <==> ToolLostAt(anchors, have, uuid, i + 1) {
        hide LacksTool;
        assert uuid in was <==> ToolLostAt(anchors, have, uuid, i);
      }
    }
    forall uuid ensures uuid in accepted <==> exists need :: ToolCarried(anchors, uuid, need) && !Have(have, need) {
      ToolLostIsUnmet(anchors, have, uuid);
    }
  }

  method AnyLacking(ids: seq<string>, landed: set<string>) returns (lacks: bool)
    ensures lacks <==> exists k :: 0 <= k < |ids| && ids[k] != "" && ids[k] !in landed
  {
    for k := 0 to |ids|
      invariant forall j :: 0 <= j < k ==> ids[j] == "" || ids[j] in landed
    {
      if ids[k] != "" && ids[k] !in landed { return true; }
    }
    return false;
  }

  /** The last work of every turn met so far, with where it was. */
  ghost predicate LastWork(anchors: seq<Anchor>, last: map<string, Anchor>, at: map<string, nat>, n: nat)
    requires n <= |anchors|
  {
    && last.Keys == at.Keys
    && (forall t :: t in at ==> at[t] < n && last[t] == anchors[at[t]] && Works(anchors, at[t], t)
                                && forall j :: at[t] < j < n ==> !Works(anchors, j, t))
    && (forall j, t :: 0 <= j < n && Works(anchors, j, t) ==> t in at)
  }

  ghost predicate PromptLostAt(anchors: seq<Anchor>, have: Captured, uuid: string, n: nat)
    requires n <= |anchors|
  {
    exists i :: 0 <= i < n && anchors[i].uuid == uuid && Opens(anchors[i]) && anchors[i].promptId !in have.promptIds
  }

  /** The answer of turn t, if the ledger has neither its record nor its turn. */
  predicate LacksAnswer(a: Anchor, t: string, have: Captured)
  {
    a.uuid !in have.recordUuids && t !in have.assistantPrompts
  }

  ghost predicate AnswerLost(last: map<string, Anchor>, turns: set<string>, have: Captured, uuid: string)
    requires turns <= last.Keys
  {
    exists t :: t in turns && last[t].uuid == uuid && LacksAnswer(last[t], t, have)
  }

  ghost predicate Unmet(anchors: seq<Anchor>, have: Captured, uuid: string)
  {
    exists need :: Carried(anchors, uuid, need) && !Have(have, need)
  }

  lemma LostPromptIsUnmet(anchors: seq<Anchor>, have: Captured, uuid: string)
    requires PromptLostAt(anchors, have, uuid, |anchors|)
    ensures Unmet(anchors, have, uuid)
  {
    var i :| 0 <= i < |anchors| && anchors[i].uuid == uuid && Opens(anchors[i])
      && anchors[i].promptId !in have.promptIds;
    var need := PromptNeed(anchors[i].promptId);
    assert Requires(anchors, i, need);
    assert Carried(anchors, uuid, need) && !Have(have, need);
  }

  lemma LostAnswerIsUnmet(anchors: seq<Anchor>, have: Captured, last: map<string, Anchor>, at: map<string, nat>,
                          uuid: string)
    requires LastWork(anchors, last, at, |anchors|) && AnswerLost(last, last.Keys, have, uuid)
    ensures Unmet(anchors, have, uuid)
  {
    hide TurnAt;
    var t :| t in last && last[t].uuid == uuid && LacksAnswer(last[t], t, have);
    var need := AnswerNeed(t, uuid);
    assert Requires(anchors, at[t], need);
    assert Carried(anchors, uuid, need) && !Have(have, need);
  }

  lemma UnmetIsLost(anchors: seq<Anchor>, have: Captured, last: map<string, Anchor>, at: map<string, nat>, uuid: string)
    requires LastWork(anchors, last, at, |anchors|) && Unmet(anchors, have, uuid)
    ensures (exists need :: ToolCarried(anchors, uuid, need) && !Have(have, need))
            || PromptLostAt(anchors, have, uuid, |anchors|) || AnswerLost(last, last.Keys, have, uuid)
  {
    hide TurnAt;
    var need :| Carried(anchors, uuid, need) && !Have(have, need);
    var i :| 0 <= i < |anchors| && anchors[i].uuid == uuid && Requires(anchors, i, need);
    match need {
      case PromptNeed(p) => assert PromptLostAt(anchors, have, uuid, |anchors|);
      case AnswerNeed(t, u) =>
        assert at[t] == i;
        assert last[t].uuid == uuid && LacksAnswer(last[t], t, have);
      case _ => assert ToolCarried(anchors, uuid, need);
    }
  }

  /** The three kinds of loss together are the unmet needs. */
  lemma LossIsUnmet(anchors: seq<Anchor>, have: Captured, last: map<string, Anchor>, at: map<string, nat>, uuid: string)
    requires LastWork(anchors, last, at, |anchors|)
    ensures (exists need :: ToolCarried(anchors, uuid, need) && !Have(have, need))
            || PromptLostAt(anchors, have, uuid, |anchors|) || AnswerLost(last, last.Keys, have, uuid)
       <==> exists need :: Carried(anchors, uuid, need) && !Have(have, need)
  {
    hide LastWork, AnswerLost, PromptLostAt, Have, Requires;
    if need :| ToolCarried(anchors, uuid, need) && !Have(have, need) { ToolNeedIsCarried(anchors, uuid, need); }
    if PromptLostAt(anchors, have, uuid, |anchors|) { LostPromptIsUnmet(anchors, have, uuid); }
    if AnswerLost(last, last.Keys, have, uuid) { LostAnswerIsUnmet(anchors, have, last, at, uuid); }
    if Unmet(anchors, have, uuid) { UnmetIsLost(anchors, have, last, at, uuid); }
  }

  lemma ToolNeedIsCarried(anchors: seq<Anchor>, uuid: string, need: Need)
    requires ToolCarried(anchors, uuid, need)
    ensures Carried(anchors, uuid, need)
  {
    var i :| 0 <= i < |anchors| && anchors[i].uuid == uuid && CarriesTool(anchors[i], need);
    assert Requires(anchors, i, need);
  }

  lemma PromptStep(anchors: seq<Anchor>, have: Captured, i: nat, uuid: string)
    requires i < |anchors|
    ensures PromptLostAt(anchors, have, uuid, i + 1)
       <==> PromptLostAt(anchors, have, uuid, i)
            || (anchors[i].uuid == uuid && Opens(anchors[i]) && anchors[i].promptId !in have.promptIds)
  {
  }

  lemma WorkStep(anchors: seq<Anchor>, last: map<string, Anchor>, at: map<string, nat>, i: nat)
    requires i < |anchors| && LastWork(anchors, last, at, i)
    ensures
      var t := TurnAt(anchors, i);
      if Works(anchors, i, t) then LastWork(anchors, last[t := anchors[i]], at[t := i], i + 1)
      else LastWork(anchors, last, at, i + 1)
  {
    hide TurnAt;
  }

  /** The one pass over the anchors: prompts not captured, and each turn's last work. */
  method DiffPrompts(anchors: seq<Anchor>, have: Captured)
    returns (prompts: set<string>, works: map<string, Anchor>, ghost at: map<string, nat>)
    ensures forall uuid :: uuid in prompts <==> PromptLostAt(anchors, have, uuid, |anchors|)
    ensures LastWork(anchors, works, at, |anchors|)
  {
    prompts := {};
    var turn := "";
    works, at := map[], map[];
    hide PromptLostAt, LastWork;
    DiffStart(anchors, have);
    for i := 0 to |anchors|
      invariant turn == TurnAt(anchors, i)
      invariant forall uuid :: uuid in prompts <==> PromptLostAt(anchors, have, uuid, i)
      invariant LastWork(anchors, works, at, i)
    {
      var a := anchors[i];
      ghost var was := prompts;
      WorkStep(anchors, works, at, i);
      if a.kind == "user" && !a.isToolResult && !a.isMeta && a.promptId != "" {
        turn := a.promptId;
        if a.promptId !in have.promptIds { prompts := prompts + {a.uuid}; }
      } else if a.kind == "assistant" && turn != "" && |a.toolUseIds| == 0 {
        works := works[turn := a];
        at := at[turn := i];
      }
      forall uuid ensures uuid in prompts <==> PromptLostAt(anchors, have, uuid, i + 1) {
        assert uuid in was <==> PromptLostAt(anchors, have, uuid, i);
        PromptStep(anchors, have, i, uuid);
      }
    }
  }

  lemma DiffStart(anchors: seq<Anchor>, have: Captured)
    ensures forall uuid :: !PromptLostAt(anchors, have, uuid, 0)
    ensures LastWork(anchors, map[], map[], 0)
  {
  }

  lemma AnswerStep(last: map<string, Anchor>, done: set<string>, t: string, have: Captured,
                   was: set<string>, now: set<string>, base: set<string>)
    requires done <= last.Keys && t in last
    requires forall uuid :: uuid in was <==> uuid in base || AnswerLost(last, done, have, uuid)
    requires now == if LacksAnswer(last[t], t, have) then was + {last[t].uuid} else was
    ensures forall uuid :: uuid in now <==> uuid in base || AnswerLost(last, done + {t}, have, uuid)
  {
    hide LacksAnswer;
    forall uuid ensures uuid in now <==> uuid in base || AnswerLost(last, done + {t}, have, uuid) {
      assert uuid in was <==> uuid in base || AnswerLost(last, done, have, uuid);
    }
  }

  /** The pass over the turns' last works. */
  method DiffAnswers(last: map<string, Anchor>, have: Captured, found: set<string>) returns (accepted: set<string>)
    ensures forall uuid :: uuid in accepted <==> uuid in found || AnswerLost(last, last.Keys, have, uuid)
  {
    accepted := found;
    var turns := last.Keys;
    while turns != {}
      invariant turns <= last.Keys
      invariant forall uuid :: uuid in accepted <==> uuid in found || AnswerLost(last, last.Keys - turns, have, uuid)
      decreases |turns|
    {
      var t :| t in turns;
      ghost var was, done := accepted, last.Keys - turns;
      turns := turns - {t};
      var a := last[t];
      if !(a.uuid in have.recordUuids || t in have.assistantPrompts) { accepted := accepted + {a.uuid}; }
      AnswerStep(last, done, t, have, was, accepted, found);
      assert last.Keys - turns == done + {t};
    }
    assert last.Keys - turns == last.Keys;
  }

  /** The whole diff: the records under the accepted uuids are exactly those with a need the ledger lacks. */
  method MissingRecords(anchors: seq<Anchor>, have: Captured) returns (accepted: set<string>)
    ensures AcceptsLost(anchors, have, accepted)
  {
    hide LastWork, AnswerLost, PromptLostAt, ToolCarried, Carried, Have;
    var tools := MissingToolRecords(anchors, have);
    var prompts, last, at := DiffPrompts(anchors, have);
    accepted := DiffAnswers(last, have, tools + prompts);
    forall uuid ensures uuid in accepted <==> exists need :: Carried(anchors, uuid, need) && !Have(have, need) {
      LossIsUnmet(anchors, have, last, at, uuid);
    }
  }
}
