/** Registering this agent's hooks in a settings file somebody else owns, and taking exactly them out again. */
module HookSettings {
  import opened Events
  import opened Names

  datatype Entry = Entry(kind: string, command: string, timeout: int, async: bool)

  datatype Group = Group(matcher: string, hooks: seq<Entry>)

  /** The hooks section: the groups of every event name. */
  type Hooks = map<string, seq<Group>>

  const EVENTS: seq<string> := [
    "SessionStart", "UserPromptSubmit", "PreToolUse", "PostToolUse", "PostToolUseFailure", "Stop", "SubagentStop",
    "PreCompact", "SessionEnd"]

  const MARKER := "#loop-sessions"
  const SESSION_END_TIMEOUT := 30

  datatype Options = Options(binary: string, timeout: int)

  function WithDefaults(o: Options): Options
  {
    if o.timeout <= 0 then o.(timeout := SESSION_END_TIMEOUT) else o
  }

  function Command(binary: string): string
  {
    binary + " hook " + MARKER
  }

  predicate Contains(s: string, sub: string)
  {
    sub <= s || (s != [] && Contains(s[1..], sub))
  }

  /** Whatever holds the marker is taken for ours. */
  predicate IsOurs(e: Entry)
  {
    Contains(e.command, MARKER)
  }

  /** Every hook is asynchronous; only SessionEnd carries a timeout. */
  function Wanted(o: Options, name: string): Entry
  {
    Entry("command", Command(o.binary), if name == "SessionEnd" then o.timeout else 0, true)
  }

  lemma {:induction false} ContainsSuffix(a: string, sub: string)
    ensures Contains(a + sub, sub)
  {
    if a == [] {
      assert a + sub == sub;
    } else {
      assert (a + sub)[1..] == a[1..] + sub;
      ContainsSuffix(a[1..], sub);
    }
  }

  lemma WantedIsOurs(o: Options, name: string)
    ensures IsOurs(Wanted(o, name))
  {
    hide Contains;
    ContainsSuffix(o.binary + " hook ", MARKER);
  }

  function GroupsOf(h: Hooks, name: string): seq<Group>
  {
    if name in h then h[name] else []
  }

  // ---------------------------------------------------------- finding our entry

  /** The position of the command among a group's entries, or their number. */
  function IndexIn(entries: seq<Entry>, command: string): (i: nat)
    ensures i <= |entries|
    ensures forall j :: 0 <= j < i ==> entries[j].command != command
    ensures i < |entries| ==> entries[i].command == command
  {
    if entries == [] || entries[0].command == command then 0 else 1 + IndexIn(entries[1..], command)
  }

  predicate HoldsIn(g: Group, command: string)
  {
    IndexIn(g.hooks, command) < |g.hooks|
  }

  /** The first group that holds the command, or their number. */
  function HolderOf(groups: seq<Group>, command: string): (g: nat)
    ensures g <= |groups|
    ensures forall j :: 0 <= j < g ==> !HoldsIn(groups[j], command)
    ensures g < |groups| ==> HoldsIn(groups[g], command)
  {
    if groups == [] || HoldsIn(groups[0], command) then 0 else 1 + HolderOf(groups[1..], command)
  }

  /** The first group without a matcher, or their number. */
  function OpenGroup(groups: seq<Group>): (g: nat)
    ensures g <= |groups|
    ensures forall j :: 0 <= j < g ==> groups[j].matcher != ""
    ensures g < |groups| ==> groups[g].matcher == ""
  {
    if groups == [] || groups[0].matcher == "" then 0 else 1 + OpenGroup(groups[1..])
  }

  /** The entry found for an event, if there is one. */
  function Found(groups: seq<Group>, command: string): Option<Entry>
  {
    var g := HolderOf(groups, command);
    if g < |groups| then Some(groups[g].hooks[IndexIn(groups[g].hooks, command)]) else None
  }

  predicate Stale(have: Entry, want: Entry)
  {
    have.timeout != want.timeout || have.async != want.async
  }

  function Brought(have: Entry, want: Entry): Entry
  {
    have.(timeout := want.timeout, async := want.async)
  }

  function UpdatedGroup(g: Group, want: Entry): Group
    requires HoldsIn(g, want.command)
  {
    var i := IndexIn(g.hooks, want.command);
    g.(hooks := g.hooks[i := Brought(g.hooks[i], want)])
  }

  /** The first entry with exactly the wanted command brought up to date, where there is one. */
  function Updated(groups: seq<Group>, want: Entry): seq<Group>
  {
    var g := HolderOf(groups, want.command);
    if g < |groups| then groups[g := UpdatedGroup(groups[g], want)] else groups
  }

  /** appendToGroup: the first group without a matcher takes the entry, else a new group does. */
  function Appended(groups: seq<Group>, e: Entry): seq<Group>
  {
    var g := OpenGroup(groups);
    if g < |groups| then groups[g := groups[g].(hooks := groups[g].hooks + [e])] else groups + [Group("", [e])]
  }

  function RegisteredGroups(groups: seq<Group>, want: Entry): seq<Group>
  {
    if Found(groups, want.command).Some? then Updated(groups, want) else Appended(groups, want)
  }

  /** The hooks after registration. */
  function Registered(h: Hooks, o: Options): Hooks
  {
    map n | n in h.Keys + (set e | e in EVENTS) ::
      if n in EVENTS then RegisteredGroups(GroupsOf(h, n), Wanted(o, n)) else GroupsOf(h, n)
  }

  /** The hooks after a refresh: the same events, groups and commands. */
  function Refreshed(h: Hooks, o: Options): Hooks
  {
    map n | n in h :: if n in EVENTS then Updated(h[n], Wanted(o, n)) else h[n]
  }

  function Foreign(entries: seq<Entry>): (r: seq<Entry>)
    ensures forall e :: e in r ==> !IsOurs(e)
  {
    if entries == [] then []
    else Foreign(entries[..|entries| - 1]) + if IsOurs(entries[|entries| - 1]) then [] else [entries[|entries| - 1]]
  }

  /** A group emptied of ours is dropped. */
  function KeptGroups(groups: seq<Group>): seq<Group>
  {
    if groups == [] then []
    else
      var last := groups[|groups| - 1];
      var kept := Foreign(last.hooks);
      KeptGroups(groups[..|groups| - 1]) + if kept != [] then [last.(hooks := kept)] else []
  }

  /** The hooks after removal: an event left without groups goes too. */
  function Unregistered(h: Hooks): Hooks
  {
    map n | n in h && KeptGroups(h[n]) != [] :: KeptGroups(h[n])
  }

  // --------------------------------------------------------------- the settings

  predicate Adds(h: Hooks, o: Options, n: string)
  {
    n in EVENTS && Found(GroupsOf(h, n), Wanted(o, n).command) == None
  }

  predicate Updates(h: Hooks, o: Options, n: string)
  {
    var have := Found(GroupsOf(h, n), Wanted(o, n).command);
    n in EVENTS && have.Some? && Stale(have.value, Wanted(o, n))
  }

  datatype Plan = Plan(add: set<string>, alreadySet: set<string>, update: set<string>)

  ghost predicate IsPlan(p: Plan, h: Hooks, o: Options)
  {
    && p.add == (set n | n in EVENTS && Adds(h, o, n))
    && p.alreadySet == (set n | n in EVENTS && !Adds(h, o, n))
    && p.update == (set n | n in EVENTS && Updates(h, o, n))
  }

  predicate Absolute(binary: string)
  {
    binary != "" && binary[0] == '/'
  }

  datatype Outcome = Refused | Unchanged(plan: Plan) | Written(plan: Plan)

  /** The entries of ours an event holds. */
  function OursIn(groups: seq<Group>): nat
  {
    if groups == [] then 0
    else
      var last := groups[|groups| - 1].hooks;
      ForeignFits(last);
      OursIn(groups[..|groups| - 1]) + (|last| - |Foreign(last)|)
  }

  lemma {:induction false} ForeignFits(entries: seq<Entry>)
    ensures |Foreign(entries)| <= |entries|
  {
    if entries != [] { ForeignFits(entries[..|entries| - 1]); }
  }

  method FindOurs(groups: seq<Group>, command: string) returns (gi: nat, hi: nat, ok: bool)
    ensures ok <==> Found(groups, command).Some?
    ensures ok ==>
            gi == HolderOf(groups, command) < |groups| && hi == IndexIn(groups[gi].hooks, command) < |groups[gi].hooks|
  {
    gi, hi := 0, 0;
    while gi < |groups|
      invariant gi <= HolderOf(groups, command)
    {
      hi := 0;
      while hi < |groups[gi].hooks|
        invariant hi <= IndexIn(groups[gi].hooks, command)
      {
        if groups[gi].hooks[hi].command == command { return gi, hi, true; }
        hi := hi + 1;
      }
      gi := gi + 1;
    }
    return gi, 0, false;
  }

  method AppendToGroup(groups: seq<Group>, e: Entry) returns (r: seq<Group>)
    ensures r == Appended(groups, e)
  {
    for i := 0 to |groups|
      invariant i <= OpenGroup(groups)
    {
      if groups[i].matcher == "" { return groups[i := groups[i].(hooks := groups[i].hooks + [e])]; }
    }
    return groups + [Group("", [e])];
  }

  method Classify(h: Hooks, o: Options, n: string) returns (adds: bool, updates: bool)
    requires n in EVENTS
    ensures adds == Adds(h, o, n) && updates == Updates(h, o, n) && !(adds && updates)
  {
    var want := Wanted(o, n);
    var groups := GroupsOf(h, n);
    var gi, hi, ok := FindOurs(groups, want.command);
    adds := !ok;
    updates := ok && Stale(groups[gi].hooks[hi], want);
  }

  /** One event of Refresh: rewritten in place where it is found. */
  method UpdateEvent(groups: seq<Group>, want: Entry) returns (r: seq<Group>)
    ensures r == Updated(groups, want)
  {
    r := groups;
    var gi, hi, ok := FindOurs(groups, want.command);
    if ok {
      var have := groups[gi].hooks[hi].(timeout := want.timeout, async := want.async);
      r := groups[gi := groups[gi].(hooks := groups[gi].hooks[hi := have])];
    }
  }

  /** One event of Register: rewritten in place, or added. */
  method RegisterEvent(groups: seq<Group>, want: Entry) returns (r: seq<Group>)
    ensures r == RegisteredGroups(groups, want)
  {
    var gi, hi, ok := FindOurs(groups, want.command);
    if ok {
      var have := groups[gi].hooks[hi].(timeout := want.timeout, async := want.async);
      return groups[gi := groups[gi].(hooks := groups[gi].hooks[hi := have])];
    }
    r := AppendToGroup(groups, want);
  }

  /** One event of Unregister. */
  method KeepGroups(groups: seq<Group>) returns (kept: seq<Group>, removed: nat)
    ensures kept == KeptGroups(groups) && removed == OursIn(groups)
  {
    hide Contains;
    kept, removed := [], 0;
    for i := 0 to |groups|
      invariant kept == KeptGroups(groups[..i]) && removed == OursIn(groups[..i])
    {
      assert groups[..i + 1][..i] == groups[..i];
      var entries, gone := KeepForeign(groups[i].hooks);
      removed := removed + gone;
      if |entries| > 0 { kept := kept + [groups[i].(hooks := entries)]; }
    }
    assert groups[..|groups|] == groups;
  }

  method KeepForeign(entries: seq<Entry>) returns (kept: seq<Entry>, removed: nat)
    ensures kept == Foreign(entries) && removed == |entries| - |Foreign(entries)|
  {
    hide Contains, IsOurs;
    kept, removed := [], 0;
    for i := 0 to |entries|
      invariant kept == Foreign(entries[..i]) && removed == i - |kept|
    {
      assert entries[..i + 1][..i] == entries[..i];
      if IsOurs(entries[i]) { removed := removed + 1; } else { kept := kept + [entries[i]]; }
    }
    assert entries[..|entries|] == entries;
  }

  ghost function RegisteredOn(h: Hooks, o: Options, names: seq<string>): Hooks
  {
    map n | n in h.Keys + (set e | e in names) ::
      if n in names then RegisteredGroups(GroupsOf(h, n), Wanted(o, n)) else GroupsOf(h, n)
  }

  lemma RegisteredNext(h: Hooks, o: Options, names: seq<string>, n: string)
    requires n !in names
    ensures var t := RegisteredOn(h, o, names);
            && GroupsOf(t, n) == GroupsOf(h, n)
            && RegisteredOn(h, o, names + [n]) == t[n := RegisteredGroups(GroupsOf(h, n), Wanted(o, n))]
    ensures RegisteredOn(h, o, []) == h
  {
    hide RegisteredGroups, Wanted;
  }

  lemma RegisteredAll(h: Hooks, o: Options)
    ensures RegisteredOn(h, o, EVENTS) == Registered(h, o)
  {
    hide RegisteredGroups, Wanted;
  }

  ghost function RefreshedOn(h: Hooks, o: Options, names: seq<string>): Hooks
  {
    map n | n in h :: if n in names then Updated(h[n], Wanted(o, n)) else h[n]
  }

  lemma RefreshedNext(h: Hooks, o: Options, names: seq<string>, n: string)
    requires n !in names
    ensures var t := RefreshedOn(h, o, names);
            && t.Keys == h.Keys
            && (n in h ==> t[n] == h[n] && RefreshedOn(h, o, names + [n]) == t[n := Updated(h[n], Wanted(o, n))])
            && (n !in h ==> RefreshedOn(h, o, names + [n]) == t)
    ensures RefreshedOn(h, o, []) == h
  {
    hide Updated, Wanted;
  }

  lemma RefreshedAll(h: Hooks, o: Options)
    ensures RefreshedOn(h, o, EVENTS) == Refreshed(h, o)
  {
    hide Updated, Wanted;
  }

  /** No event is registered twice. */
  lemma EventsDistinct(i: nat)
    requires i < |EVENTS|
    ensures EVENTS[i] !in EVENTS[..i] && EVENTS[..i + 1] == EVENTS[..i] + [EVENTS[i]]
    ensures EVENTS[..0] == [] && EVENTS[..|EVENTS|] == EVENTS
  {
  }

  lemma UpToDateIsUpdated(groups: seq<Group>, want: Entry)
    requires Found(groups, want.command).Some? ==> !Stale(Found(groups, want.command).value, want)
    ensures Updated(groups, want) == groups
  {
    var g := HolderOf(groups, want.command);
    if g < |groups| {
      var i := IndexIn(groups[g].hooks, want.command);
      assert groups[g].hooks[i := Brought(groups[g].hooks[i], want)] == groups[g].hooks;
    }
  }

  lemma NothingToDo(h: Hooks, o: Options, p: Plan)
    requires IsPlan(p, h, o) && p.add == {} && p.update == {}
    ensures Registered(h, o) == h
  {
    forall n | n in EVENTS ensures n in h && RegisteredGroups(GroupsOf(h, n), Wanted(o, n)) == h[n] {
      assert n !in p.add && n !in p.update;
      UpToDateIsUpdated(GroupsOf(h, n), Wanted(o, n));
    }
  }

  lemma NothingToRefresh(h: Hooks, o: Options, p: Plan)
    requires IsPlan(p, h, o) && p.update == {}
    ensures Refreshed(h, o) == h
  {
    forall n | n in EVENTS && n in h ensures Updated(h[n], Wanted(o, n)) == h[n] {
      assert n !in p.update;
      UpToDateIsUpdated(h[n], Wanted(o, n));
    }
  }

  class Settings {
    var hooks: Hooks

    constructor (hooks: Hooks)
      ensures this.hooks == hooks
    {
      this.hooks := hooks;
    }

    method Preview(o: Options) returns (p: Plan)
      ensures IsPlan(p, hooks, WithDefaults(o))
    {
      hide Adds, Updates;
      var d := WithDefaults(o);
      p := Plan({}, {}, {});
      for i := 0 to |EVENTS|
        invariant p.add == set n | n in EVENTS[..i] && Adds(hooks, d, n)
        invariant p.alreadySet == set n | n in EVENTS[..i] && !Adds(hooks, d, n)
        invariant p.update == set n | n in EVENTS[..i] && Updates(hooks, d, n)
      {
        var n := EVENTS[i];
        var adds, updates := Classify(hooks, d, n);
        assert EVENTS[..i + 1] == EVENTS[..i] + [n];
        if adds {
          p := p.(add := p.add + {n});
        } else if updates {
          p := p.(alreadySet := p.alreadySet + {n}, update := p.update + {n});
        } else {
          p := p.(alreadySet := p.alreadySet + {n});
        }
      }
      assert EVENTS[..|EVENTS|] == EVENTS;
    }

    method Register(o: Options) returns (r: Outcome)
      modifies this
      ensures r == Refused <==> !Absolute(o.binary)
      ensures hooks == if r == Refused then old(hooks) else Registered(old(hooks), WithDefaults(o))
      ensures r.Unchanged? ==> hooks == old(hooks)
      ensures !r.Refused? ==> IsPlan(r.plan, old(hooks), WithDefaults(o))
    {
      hide RegisteredGroups, Wanted, RegisteredOn, Registered;
      if !Absolute(o.binary) { return Refused; }
      var d := WithDefaults(o);
      var plan := Preview(o);
      ghost var was := hooks;
      if plan.add == {} && plan.update == {} {
        NothingToDo(was, d, plan);
        return Unchanged(plan);
      }
      EventsDistinct(0);
      RegisteredNext(was, d, [], "");
      for i := 0 to |EVENTS|
        invariant hooks == RegisteredOn(was, d, EVENTS[..i])
      {
        EventsDistinct(i);
        var n := EVENTS[i];
        RegisteredNext(was, d, EVENTS[..i], n);
        var groups := RegisterEvent(GroupsOf(hooks, n), Wanted(d, n));
        hooks := hooks[n := groups];
      }
      RegisteredAll(was, d);
      return Written(plan);
    }

    /** Refresh adds nothing: that is left to the installer. */
    method Refresh(o: Options) returns (updated: set<string>, ok: bool)
      modifies this
      ensures ok == Absolute(o.binary)
      ensures hooks == if ok then Refreshed(old(hooks), WithDefaults(o)) else old(hooks)
      ensures updated == if ok then set n | n in EVENTS && Updates(old(hooks), WithDefaults(o), n) else {}
    {
      hide Updated, Wanted, RefreshedOn, Updates, Refreshed;
      if !Absolute(o.binary) { return {}, false; }
      var d := WithDefaults(o);
      var plan := Preview(o);
      ghost var was := hooks;
      if plan.update == {} {
        NothingToRefresh(was, d, plan);
        return {}, true;
      }
      EventsDistinct(0);
      RefreshedNext(was, d, [], "");
      for i := 0 to |EVENTS|
        invariant hooks == RefreshedOn(was, d, EVENTS[..i])
      {
        EventsDistinct(i);
        var n := EVENTS[i];
        RefreshedNext(was, d, EVENTS[..i], n);
        if n in hooks {
          var groups := UpdateEvent(hooks[n], Wanted(d, n));
          hooks := hooks[n := groups];
        }
      }
      RefreshedAll(was, d);
      return plan.update, true;
    }

    method Unregister() returns (removed: nat)
      modifies this
      ensures removed == 0 ==> hooks == old(hooks)
      ensures removed > 0 ==> hooks == Unregistered(old(hooks))
      ensures removed == 0 <==> forall n :: n in old(hooks) ==> OursIn(old(hooks)[n]) == 0
    {
      hide KeptGroups, OursIn, Listing, UnregisteredUpTo, NoneIn;
      var names := Listing(hooks.Keys);
      var left := hooks;
      removed := 0;
      UnregisteredEnds(hooks);
      for i := 0 to |names|
        invariant hooks == old(hooks) && left == UnregisteredUpTo(hooks, names[..i])
        invariant removed == 0 <==> NoneIn(hooks, names[..i])
      {
        UnregisteredStep(hooks, names, i);
        var kept, gone := KeepGroups(hooks[names[i]]);
        removed := removed + gone;
        if kept != [] { left := left[names[i] := kept]; } else { left := left - {names[i]}; }
      }
      assert names[..|names|] == names;
      if removed == 0 { return; }
      hooks := left;
    }
  }

  ghost function UnregisteredUpTo(h: Hooks, names: seq<string>): Hooks
  {
    map n | n in h && (n in names ==> KeptGroups(h[n]) != []) :: if n in names then KeptGroups(h[n]) else h[n]
  }

  /** These events hold nothing of ours. */
  ghost predicate NoneIn(h: Hooks, names: seq<string>)
  {
    forall n :: n in names && n in h ==> OursIn(h[n]) == 0
  }

  lemma UnregisteredEnds(h: Hooks)
    ensures UnregisteredUpTo(h, []) == h && NoneIn(h, [])
    ensures UnregisteredUpTo(h, Listing(h.Keys)) == Unregistered(h)
    ensures NoneIn(h, Listing(h.Keys)) <==> forall n :: n in h ==> OursIn(h[n]) == 0
  {
    hide KeptGroups, OursIn, Listing;
  }

  lemma UnregisteredStep(h: Hooks, names: seq<string>, i: nat)
    requires i < |names| && names[i] in h
    ensures var t, n := UnregisteredUpTo(h, names[..i]), names[i];
            UnregisteredUpTo(h, names[..i + 1]) == if KeptGroups(h[n]) != [] then t[n := KeptGroups(h[n])] else t - {n}
    ensures NoneIn(h, names[..i + 1]) <==> NoneIn(h, names[..i]) && OursIn(h[names[i]]) == 0
  {
    hide KeptGroups, OursIn;
    assert names[..i + 1] == names[..i] + [names[i]];
  }

  // --------------------------------------------------- what registration keeps

  /** Changing one of our entries for another, or adding one, changes nothing foreign. */
  lemma {:induction false} ForeignUpdate(entries: seq<Entry>, i: nat, e: Entry)
    requires i < |entries| && IsOurs(entries[i]) && IsOurs(e)
    ensures Foreign(entries[i := e]) == Foreign(entries)
  {
    hide IsOurs;
    var k := |entries| - 1;
    if i < k {
      ForeignUpdate(entries[..k], i, e);
      assert entries[i := e][..k] == entries[..k][i := e];
    } else {
      assert entries[i := e][..k] == entries[..k];
    }
  }

  lemma ForeignAppend(entries: seq<Entry>, e: Entry)
    requires IsOurs(e)
    ensures Foreign(entries + [e]) == Foreign(entries)
  {
    hide IsOurs;
    assert (entries + [e])[..|entries|] == entries;
  }

  /** Group by group the same matcher and the same foreign entries in order; a group beyond the old ones holds none. */
  ghost predicate SameForeign(before: seq<Group>, after: seq<Group>)
  {
    && |before| <= |after|
    && (forall i :: 0 <= i < |before| ==>
          after[i].matcher == before[i].matcher && Foreign(after[i].hooks) == Foreign(before[i].hooks))
    && (forall i :: |before| <= i < |after| ==> Foreign(after[i].hooks) == [])
  }

  lemma UpdateKeepsForeign(groups: seq<Group>, want: Entry)
    requires IsOurs(want)
    ensures SameForeign(groups, Updated(groups, want)) && |Updated(groups, want)| == |groups|
  {
    hide Contains;
    var g := HolderOf(groups, want.command);
    if g < |groups| {
      var i := IndexIn(groups[g].hooks, want.command);
      ForeignUpdate(groups[g].hooks, i, Brought(groups[g].hooks[i], want));
    }
  }

  lemma AppendKeepsForeign(groups: seq<Group>, e: Entry)
    requires IsOurs(e)
    ensures SameForeign(groups, Appended(groups, e))
  {
    hide IsOurs, Foreign;
    var g := OpenGroup(groups);
    if g < |groups| {
      ForeignAppend(groups[g].hooks, e);
    } else {
      ForeignAppend([], e);
      assert [] + [e] == [e];
      ForeignFits([]);
    }
  }

  lemma RegisterKeepsForeign(groups: seq<Group>, want: Entry)
    requires IsOurs(want)
    ensures SameForeign(groups, RegisteredGroups(groups, want))
  {
    hide IsOurs, SameForeign, Updated, Appended, Found;
    UpdateKeepsForeign(groups, want);
    AppendKeepsForeign(groups, want);
  }

  /** Registration keeps every foreign entry of every event, in its group and in order. */
  lemma RegisterKeepsEveryForeign(h: Hooks, o: Options, n: string)
    ensures n in h ==> n in Registered(h, o)
    ensures SameForeign(GroupsOf(h, n), GroupsOf(Registered(h, o), n))
  {
    hide RegisteredGroups, IsOurs, Wanted;
    WantedIsOurs(o, n);
    RegisterKeepsForeign(GroupsOf(h, n), Wanted(o, n));
  }

  lemma CommandAt(groups: seq<Group>, command: string, g: nat, i: nat)
    requires g < |groups| && i < |groups[g].hooks| && groups[g].hooks[i].command == command
    requires forall j :: 0 <= j < g ==> !HoldsIn(groups[j], command)
    requires forall j :: 0 <= j < i ==> groups[g].hooks[j].command != command
    ensures HolderOf(groups, command) == g && IndexIn(groups[g].hooks, command) == i
    ensures Found(groups, command) == Some(groups[g].hooks[i])
  {
  }

  /** After registration the event's entry is there and current. */
  lemma RegisteredIsCurrent(groups: seq<Group>, want: Entry)
    ensures var found := Found(RegisteredGroups(groups, want), want.command);
            found.Some? && !Stale(found.value, want)
  {
    var after := RegisteredGroups(groups, want);
    var g := HolderOf(groups, want.command);
    if g < |groups| {
      CommandAt(after, want.command, g, IndexIn(groups[g].hooks, want.command));
    } else {
      var k := OpenGroup(groups);
      CommandAt(after, want.command, k, if k < |groups| then |groups[k].hooks| else 0);
    }
  }

  /** A second registration, or a preview of one, finds nothing to add or update. */
  lemma RegisterIdempotent(h: Hooks, o: Options)
    ensures forall n :: n in EVENTS ==> !Adds(Registered(h, o), o, n) && !Updates(Registered(h, o), o, n)
    ensures Registered(Registered(h, o), o) == Registered(h, o)
  {
    hide RegisteredGroups, Found, Updated, Wanted;
    var t := Registered(h, o);
    forall n | n in EVENTS ensures !Adds(t, o, n) && !Updates(t, o, n) {
      assert GroupsOf(t, n) == RegisteredGroups(GroupsOf(h, n), Wanted(o, n));
      RegisteredIsCurrent(GroupsOf(h, n), Wanted(o, n));
    }
    NothingToDo(t, o, Plan({}, set n | n in EVENTS && !Adds(t, o, n), {}));
  }

  ghost predicate SameCommands(before: seq<Group>, after: seq<Group>)
  {
    && |after| == |before|
    && forall i :: 0 <= i < |before| ==>
         && after[i].matcher == before[i].matcher && |after[i].hooks| == |before[i].hooks|
         && forall j :: 0 <= j < |before[i].hooks| ==> after[i].hooks[j].command == before[i].hooks[j].command
  }

  lemma RefreshEvent(groups: seq<Group>, want: Entry)
    requires IsOurs(want)
    ensures SameCommands(groups, Updated(groups, want)) && SameForeign(groups, Updated(groups, want))
    ensures Found(Updated(groups, want), want.command).Some? <==> Found(groups, want.command).Some?
    ensures Found(Updated(groups, want), want.command).Some? ==>
            !Stale(Found(Updated(groups, want), want.command).value, want)
  {
    hide IsOurs, SameForeign, Stale;
    UpdateKeepsForeign(groups, want);
    if Found(groups, want.command).Some? { RegisteredIsCurrent(groups, want); }
  }

  lemma Unchanged(groups: seq<Group>)
    ensures SameCommands(groups, groups) && SameForeign(groups, groups)
  {
  }

  /** A refresh adds no event, group or entry and changes no command and nothing foreign. */
  lemma RefreshAddsNothing(h: Hooks, o: Options)
    ensures Refreshed(h, o).Keys == h.Keys
    ensures forall n :: n in h ==> SameCommands(h[n], Refreshed(h, o)[n]) && SameForeign(h[n], Refreshed(h, o)[n])
    ensures forall n :: n in EVENTS ==>
            !Updates(Refreshed(h, o), o, n) && (Adds(Refreshed(h, o), o, n) <==> Adds(h, o, n))
  {
    hide Wanted, IsOurs, SameForeign, SameCommands, Updated, Found;
    forall n | n in h ensures SameCommands(h[n], Refreshed(h, o)[n]) && SameForeign(h[n], Refreshed(h, o)[n]) {
      WantedIsOurs(o, n);
      RefreshEvent(h[n], Wanted(o, n));
      Unchanged(h[n]);
    }
    forall n | n in EVENTS
      ensures !Updates(Refreshed(h, o), o, n) && (Adds(Refreshed(h, o), o, n) <==> Adds(h, o, n))
    {
      WantedIsOurs(o, n);
      RefreshEvent(GroupsOf(h, n), Wanted(o, n));
      NoneFound(Wanted(o, n).command);
    }
  }

  lemma NoneFound(command: string)
    ensures Found([], command) == None
  {
  }

  // ------------------------------------------------------------- taking it out

  lemma {:induction false} KeptHasNoneOfOurs(groups: seq<Group>)
    ensures forall g :: g in KeptGroups(groups) ==> g.hooks != [] && forall e :: e in g.hooks ==> !IsOurs(e)
  {
    if groups != [] { KeptHasNoneOfOurs(groups[..|groups| - 1]); }
  }

  /** Nothing of ours is left, and no empty group or event. */
  lemma UnregisterLeavesNoneOfOurs(h: Hooks)
    ensures forall n :: n in Unregistered(h) ==>
              && Unregistered(h)[n] != []
              && forall g :: g in Unregistered(h)[n] ==> g.hooks != [] && forall e :: e in g.hooks ==> !IsOurs(e)
  {
    forall n | n in Unregistered(h)
      ensures forall g :: g in Unregistered(h)[n] ==> g.hooks != [] && forall e :: e in g.hooks ==> !IsOurs(e)
    {
      KeptHasNoneOfOurs(h[n]);
    }
  }

  /** What removal leaves depends on the foreign entries alone. */
  lemma {:induction false} KeptFollowsForeign(before: seq<Group>, after: seq<Group>)
    requires SameForeign(before, after)
    ensures KeptGroups(after) == KeptGroups(before)
    decreases |after|
  {
    hide Foreign;
    if after != [] {
      var k := |after| - 1;
      if |before| == |after| {
        KeptFollowsForeign(before[..k], after[..k]);
      } else {
        KeptFollowsForeign(before, after[..k]);
      }
    }
  }

  /** Removal undoes registration: it leaves what it would have left of the hooks before. */
  lemma UnregisterUndoesRegister(h: Hooks, o: Options)
    ensures Unregistered(Registered(h, o)) == Unregistered(h)
  {
    hide KeptGroups, RegisteredGroups, SameForeign;
    forall n ensures KeptGroups(GroupsOf(Registered(h, o), n)) == KeptGroups(GroupsOf(h, n)) {
      RegisterKeepsEveryForeign(h, o, n);
      KeptFollowsForeign(GroupsOf(h, n), GroupsOf(Registered(h, o), n));
    }
    NothingKept();
  }

  lemma NothingKept()
    ensures KeptGroups([]) == []
  {
  }

  lemma {:induction false} ForeignIsAll(entries: seq<Entry>)
    ensures Foreign(entries) == entries <==> forall e :: e in entries ==> !IsOurs(e)
  {
    hide IsOurs;
    if entries != [] {
      var k := |entries| - 1;
      ForeignIsAll(entries[..k]);
      ForeignFits(entries[..k]);
      assert entries == entries[..k] + [entries[k]];
      if IsOurs(entries[k]) { assert |Foreign(entries)| < |entries|; }
      if Foreign(entries) == entries { assert Foreign(entries[..k]) == entries[..k]; }
    }
  }

  /** A group removal would leave as it is. */
  predicate Untouched(g: Group)
  {
    g.hooks != [] && forall i :: 0 <= i < |g.hooks| ==> !IsOurs(g.hooks[i])
  }

  lemma {:induction false} KeptFit(groups: seq<Group>)
    ensures |KeptGroups(groups)| <= |groups|
  {
    if groups != [] { KeptFit(groups[..|groups| - 1]); }
  }

  /** The last group survives removal as it is exactly when it is untouched. */
  lemma LastKept(g: Group)
    ensures Untouched(g) <==> Foreign(g.hooks) != [] && g.(hooks := Foreign(g.hooks)) == g
  {
    hide IsOurs, Foreign;
    ForeignIsAll(g.hooks);
    assert forall e :: e in g.hooks <==> exists i :: 0 <= i < |g.hooks| && g.hooks[i] == e;
  }

  lemma EndsAlike(a: seq<Group>, b: seq<Group>, front: seq<Group>, last: Group)
    requires |a| <= |front| && |b| <= 1
    ensures a + b == front + [last] <==> a == front && b == [last]
  {
    if a + b == front + [last] {
      assert |a| == |front| && |b| == 1;
      assert a == (a + b)[..|a|] && front == (front + [last])[..|front|];
      assert b[0] == (a + b)[|a|];
    }
  }

  lemma {:induction false} KeptIsAll(groups: seq<Group>)
    ensures KeptGroups(groups) == groups <==> forall i :: 0 <= i < |groups| ==> Untouched(groups[i])
  {
    hide Untouched, Foreign;
    if groups != [] {
      var k := |groups| - 1;
      var front, last := groups[..k], groups[k];
      KeptIsAll(front);
      KeptFit(front);
      LastKept(last);
      assert groups == front + [last];
      assert (forall i :: 0 <= i < |groups| ==> Untouched(groups[i]))
        <==> (forall i :: 0 <= i < |front| ==> Untouched(front[i])) && Untouched(last);
      var kept := if Foreign(last.hooks) != [] then [last.(hooks := Foreign(last.hooks))] else [];
      EndsAlike(KeptGroups(front), kept, front, last);
    }
  }

  /** None of ours, no empty group, and no event with an empty list. */
  predicate Pristine(h: Hooks)
  {
    forall n :: n in h ==> h[n] != [] && forall i :: 0 <= i < |h[n]| ==> Untouched(h[n][i])
  }

  /** Registering and unregistering restores the hooks exactly when they were pristine. */
  lemma RoundTripExact(h: Hooks, o: Options)
    ensures Unregistered(Registered(h, o)) == h <==> Pristine(h)
  {
    hide Untouched, KeptGroups, Registered;
    UnregisterUndoesRegister(h, o);
    forall n | n in h ensures KeptGroups(h[n]) == h[n] <==> forall i :: 0 <= i < |h[n]| ==> Untouched(h[n][i]) {
      KeptIsAll(h[n]);
    }
    if Unregistered(h) == h {
      forall n | n in h ensures h[n] != [] && forall i :: 0 <= i < |h[n]| ==> Untouched(h[n][i]) {
        assert n in Unregistered(h) && Unregistered(h)[n] == h[n];
      }
    }
  }
}
