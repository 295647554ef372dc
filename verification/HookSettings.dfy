/** The whole settings document: merging our hooks into every listed event, and removing them again. */
module HookSettings {
  import opened Wire
  import opened Hooks

  datatype Outcome = Ok(settings: Json, changed: bool) | NotAnObject | HooksNotObject | EventNotArray(event: string)

  const SESSION_START := "startup|resume|clear|compact"

  /** The events of Claude's settings, which Grok shares. */
  const CLAUDE_EVENTS := [
    HookEvent("SessionStart", SESSION_START), HookEvent("UserPromptSubmit", ""), HookEvent("PreToolUse", ""),
    HookEvent("PostToolUse", ""), HookEvent("PreCompact", ""), HookEvent("PostCompact", ""), HookEvent("Stop", ""),
    HookEvent("SubagentStart", ""), HookEvent("SubagentStop", ""), HookEvent("SessionEnd", "")]

  const CODEX_EVENTS := [
    HookEvent("SessionStart", SESSION_START), HookEvent("SessionEnd", ""), HookEvent("UserPromptSubmit", ""),
    HookEvent("PreToolUse", ""), HookEvent("PermissionRequest", ""), HookEvent("PostToolUse", ""),
    HookEvent("PreCompact", ""), HookEvent("PostCompact", ""), HookEvent("Stop", ""), HookEvent("Interrupt", ""),
    HookEvent("SubagentStart", ""), HookEvent("SubagentStop", "")]

  predicate Distinct(events: seq<HookEvent>) {
    forall i, j :: 0 <= i < j < |events| ==> events[i].event != events[j].event
  }

  lemma EventsAreDistinct()
    ensures Distinct(CLAUDE_EVENTS) && Distinct(CODEX_EVENTS)
  {
    ClaudeEventsAreDistinct();
    CodexEventsAreDistinct();
  }

  lemma ClaudeEventsAreDistinct()
    ensures Distinct(CLAUDE_EVENTS)
  {
  }

  lemma CodexEventsAreDistinct()
    ensures Distinct(CODEX_EVENTS)
  {
  }

  function Names(events: seq<HookEvent>): set<string> {
    set i | 0 <= i < |events| :: events[i].event
  }

  type Events = map<string, Json>

  // ---------------------------------------------------------------- merging

  /** An event's list; an absent event has an empty one, and anything but a list is refused. */
  function EntriesOf(hooks: Events, event: string): Option<seq<Json>> {
    if event !in hooks then Some([]) else if hooks[event].Arr? then Some(hooks[event].items) else None
  }

  datatype Merging = Merged(hooks: Events) | Refused(event: string)

  function MergedHooks(hooks: Events, events: seq<HookEvent>, cmd: string): Merging {
    if events == [] then Merged(hooks)
    else
      var he := events[|events| - 1];
      match MergedHooks(hooks, events[..|events| - 1], cmd)
      case Refused(event) => Refused(event)
      case Merged(m) =>
        match EntriesOf(m, he.event)
        case None => Refused(he.event)
        case Some(entries) => Merged(m[he.event := Arr(Upserted(entries, cmd, he))])
  }

  function FieldsOf(root: Json): Events {
    if root.Obj? then root.fields else map[]
  }

  predicate HasHooks(fields: Events) { "hooks" in fields && fields["hooks"].Obj? }

  function HooksOf(fields: Events): Events {
    if HasHooks(fields) then fields["hooks"].fields else map[]
  }

  function Merge(root: Json, events: seq<HookEvent>, cmd: string): Outcome {
    var fields := FieldsOf(root);
    if !root.Obj? && !root.Null? then NotAnObject
    else if "hooks" in fields && !HasHooks(fields) then HooksNotObject
    else
      match MergedHooks(HooksOf(fields), events, cmd)
      case Refused(event) => EventNotArray(event)
      case Merged(m) =>
        if m == HooksOf(fields) then Ok(root, false) else Ok(Obj(fields["hooks" := Obj(m)]), true)
  }

  lemma NamesGrow(events: seq<HookEvent>)
    requires Distinct(events) && events != []
    ensures var front, last := events[..|events| - 1], events[|events| - 1].event;
      Names(events) == Names(front) + {last} && last !in Names(front) && Distinct(front)
  {
    var front := events[..|events| - 1];
    assert forall i :: 0 <= i < |front| ==> front[i] == events[i];
  }

  /** What the merge of listed event `i` owes its list. */
  predicate Upserts(hooks: Events, m: Events, he: HookEvent, cmd: string) {
    && he.event in m && EntriesOf(hooks, he.event).Some?
    && m[he.event] == Arr(Upserted(EntriesOf(hooks, he.event).value, cmd, he))
  }

  /** Each listed event has its own list upserted and no other key is touched. */
  predicate MergedFrom(hooks: Events, m: Events, events: seq<HookEvent>, cmd: string) {
    && m.Keys == hooks.Keys + Names(events)
    && (forall k :: k in hooks && k !in Names(events) ==> m[k] == hooks[k])
    && (forall i :: 0 <= i < |events| ==> Upserts(hooks, m, events[i], cmd))
  }

  lemma OneMoreMerged(hooks: Events, before: Events, m: Events, events: seq<HookEvent>, cmd: string)
    requires Distinct(events) && events != [] && MergedFrom(hooks, before, events[..|events| - 1], cmd)
    requires var he := events[|events| - 1];
      && EntriesOf(before, he.event).Some?
      && m == before[he.event := Arr(Upserted(EntriesOf(before, he.event).value, cmd, he))]
    ensures MergedFrom(hooks, m, events, cmd)
  {
    var front, he := events[..|events| - 1], events[|events| - 1];
    NamesGrow(events);
    forall i | 0 <= i < |events| ensures Upserts(hooks, m, events[i], cmd) {
      if i < |front| { assert Upserts(hooks, before, front[i], cmd) && front[i].event in Names(front); }
    }
  }

  lemma {:induction false} MergedAt(hooks: Events, events: seq<HookEvent>, cmd: string)
    requires Distinct(events) && MergedHooks(hooks, events, cmd).Merged?
    ensures MergedFrom(hooks, MergedHooks(hooks, events, cmd).hooks, events, cmd)
  {
    if events != [] {
      var front := events[..|events| - 1];
      NamesGrow(events);
      MergedAt(hooks, front, cmd);
      OneMoreMerged(hooks, MergedHooks(hooks, front, cmd).hooks, MergedHooks(hooks, events, cmd).hooks, events, cmd);
    }
  }

  lemma {:induction false} AllListsMerge(hooks: Events, events: seq<HookEvent>, cmd: string)
    requires Distinct(events) && forall i :: 0 <= i < |events| ==> EntriesOf(hooks, events[i].event).Some?
    ensures MergedHooks(hooks, events, cmd).Merged?
  {
    if events != [] {
      var front := events[..|events| - 1];
      NamesGrow(events);
      AllListsMerge(hooks, front, cmd);
      MergedAt(hooks, front, cmd);
    }
  }

  /** Merging twice is merging once: the second pass finds every list installed. */
  lemma MergedSettles(hooks: Events, events: seq<HookEvent>, cmd: string)
    requires Distinct(events) && MergedHooks(hooks, events, cmd).Merged?
    ensures MergedHooks(MergedHooks(hooks, events, cmd).hooks, events, cmd) == MergedHooks(hooks, events, cmd)
  {
    var m := MergedHooks(hooks, events, cmd).hooks;
    MergedAt(hooks, events, cmd);
    AllListsMerge(m, events, cmd);
    MergedAt(m, events, cmd);
    var m2 := MergedHooks(m, events, cmd).hooks;
    SameMerge(hooks, m, m2, events, cmd);
  }

  lemma SameList(hooks: Events, m: Events, m2: Events, he: HookEvent, cmd: string)
    requires Upserts(hooks, m, he, cmd) && Upserts(m, m2, he, cmd)
    ensures m2[he.event] == m[he.event]
  {
    UpsertSettles(EntriesOf(hooks, he.event).value, cmd, he);
  }

  lemma SameMerge(hooks: Events, m: Events, m2: Events, events: seq<HookEvent>, cmd: string)
    requires MergedFrom(hooks, m, events, cmd) && MergedFrom(m, m2, events, cmd)
    ensures m2 == m
  {
    forall k | k in m ensures m2[k] == m[k] {
      if i :| 0 <= i < |events| && events[i].event == k {
        assert Upserts(hooks, m, events[i], cmd) && Upserts(m, m2, events[i], cmd);
        SameList(hooks, m, m2, events[i], cmd);
      }
    }
    assert m2.Keys == m.Keys;
  }

  lemma MergeIsIdempotent(root: Json, events: seq<HookEvent>, cmd: string)
    requires Distinct(events) && Merge(root, events, cmd).Ok?
    ensures var once := Merge(root, events, cmd).settings; Merge(once, events, cmd) == Ok(once, false)
  {
    MergedSettles(HooksOf(FieldsOf(root)), events, cmd);
  }

  /** The list the harness will read for an event. */
  function ListIn(hooks: Events, event: string): seq<Json> {
    var entries := EntriesOf(hooks, event);
    if entries.Some? then entries.value else []
  }

  /**
   * After a merge every listed event has a group of ours alone, right in matcher and timeout, and no other group of
   * ours.
   */
  lemma MergeInstalls(root: Json, events: seq<HookEvent>, cmd: string, i: nat)
    requires Distinct(events) && i < |events| && Merge(root, events, cmd).Ok?
    ensures Installed(ListIn(HooksOf(FieldsOf(Merge(root, events, cmd).settings)), events[i].event), cmd, events[i])
  {
    var merged := MergedForm(root, events, cmd);
    assert Upserts(HooksOf(FieldsOf(root)), merged, events[i], cmd);
    UpsertInstalls(ListIn(HooksOf(FieldsOf(root)), events[i].event), cmd, events[i]);
  }

  lemma MergedKeepsForeign(hooks: Events, m: Events, events: seq<HookEvent>, cmd: string, event: string)
    requires MergedFrom(hooks, m, events, cmd)
    ensures ForeignHooks(ListIn(m, event), cmd) == ForeignHooks(ListIn(hooks, event), cmd)
    ensures event !in Names(events) && event in hooks ==> event in m && m[event] == hooks[event]
  {
    if i :| 0 <= i < |events| && events[i].event == event {
      assert Upserts(hooks, m, events[i], cmd);
      UpsertKeepsForeign(ListIn(hooks, event), cmd, events[i]);
    }
  }

  /** A merge's document is the old one with the merged hooks in it. */
  lemma MergedForm(root: Json, events: seq<HookEvent>, cmd: string) returns (merged: Events)
    requires Distinct(events) && Merge(root, events, cmd).Ok?
    ensures MergedFrom(HooksOf(FieldsOf(root)), merged, events, cmd)
    ensures HooksOf(FieldsOf(Merge(root, events, cmd).settings)) == merged
    ensures FieldsOf(Merge(root, events, cmd).settings) - {"hooks"} == FieldsOf(root) - {"hooks"}
  {
    merged := MergedHooks(HooksOf(FieldsOf(root)), events, cmd).hooks;
    MergedAt(HooksOf(FieldsOf(root)), events, cmd);
    OnlyHooks(FieldsOf(root), Obj(merged));
  }

  lemma OnlyHooks(fields: Events, v: Json)
    ensures fields["hooks" := v] - {"hooks"} == fields - {"hooks"}
  {
  }

  /** A merge leaves every foreign hook where it was: same event, same order, same matcher; and touches nothing else. */
  lemma MergeKeepsForeign(root: Json, events: seq<HookEvent>, cmd: string, event: string)
    requires Distinct(events) && Merge(root, events, cmd).Ok?
    ensures var before, after := FieldsOf(root), FieldsOf(Merge(root, events, cmd).settings);
      && ForeignHooks(ListIn(HooksOf(after), event), cmd) == ForeignHooks(ListIn(HooksOf(before), event), cmd)
      && after - {"hooks"} == before - {"hooks"}
      && (event !in Names(events) && event in HooksOf(before) ==>
            event in HooksOf(after) && HooksOf(after)[event] == HooksOf(before)[event])
  {
    var merged := MergedForm(root, events, cmd);
    MergedKeepsForeign(HooksOf(FieldsOf(root)), merged, events, cmd, event);
  }

  lemma UpsertKeepsForeign(entries: seq<Json>, cmd: string, he: HookEvent)
    ensures ForeignHooks(Upserted(entries, cmd, he), cmd) == ForeignHooks(entries, cmd)
  {
    UpsertKeepsResidue(entries, cmd, he);
    ResidueKeepsForeign(entries, cmd);
    ResidueKeepsForeign(Upserted(entries, cmd, he), cmd);
  }

  /** A refusal means a shape we do not own, and names it. */
  lemma {:induction false} MergeRefusesOnlyForeignShapes(hooks: Events, events: seq<HookEvent>, cmd: string)
    requires Distinct(events)
    ensures MergedHooks(hooks, events, cmd).Merged? <==> forall i :: 0 <= i < |events| ==>
      EntriesOf(hooks, events[i].event).Some?
    ensures MergedHooks(hooks, events, cmd).Refused? ==> EntriesOf(hooks, MergedHooks(hooks, events, cmd).event).None?
  {
    if MergedHooks(hooks, events, cmd).Merged? {
      MergedAt(hooks, events, cmd);
      assert forall i :: 0 <= i < |events| ==> Upserts(hooks, MergedHooks(hooks, events, cmd).hooks, events[i], cmd);
    } else {
      NamesGrow(events);
      var front := events[..|events| - 1];
      MergeRefusesOnlyForeignShapes(hooks, front, cmd);
      if MergedHooks(hooks, front, cmd).Merged? {
        MergedAt(hooks, front, cmd);
        assert events[|events| - 1].event !in Names(front);
      } else {
        assert forall i :: 0 <= i < |front| ==> front[i] == events[i];
      }
    }
  }

  /** An event's list is still the document's own when its turn comes, and the specification goes on with it. */
  lemma NextMerged(was: Events, hooks: Events, events: seq<HookEvent>, i: nat, cmd: string)
    requires Distinct(events) && i < |events| && MergedHooks(was, events[..i], cmd) == Merged(hooks)
    ensures EntriesOf(hooks, events[i].event) == EntriesOf(was, events[i].event)
    ensures MergedHooks(was, events[..i + 1], cmd) ==
      match EntriesOf(hooks, events[i].event)
      case None => Refused(events[i].event)
      case Some(entries) => Merged(hooks[events[i].event := Arr(Upserted(entries, cmd, events[i]))])
  {
    assert events[..i + 1][..i] == events[..i];
    Untouched(was, events, i, cmd);
  }

  /** A list is written back when it changed, and then the document has changed. */
  lemma WrittenBack(was: Events, hooks: Events, he: HookEvent, entries: seq<Json>, cmd: string)
    requires EntriesOf(hooks, he.event) == Some(entries) && EntriesOf(was, he.event) == Some(entries)
    ensures var updated := Upserted(entries, cmd, he);
      if updated == entries then hooks[he.event := Arr(updated)] == hooks else hooks[he.event := Arr(updated)] != was
  {
    UpsertInstalls(entries, cmd, he);
    assert he.event in was ==> was[he.event] == Arr(entries);
  }

  /** mergeHooks over a document, or over an empty file. */
  method MergeHooks(text: Option<Json>, binPath: string, events: seq<HookEvent>) returns (r: Outcome)
    requires Distinct(events)
    ensures r == Merge(Document(text), events, HookCommand(binPath))
  {
    var root := Document(text);
    if !root.Obj? && !root.Null? { return NotAnObject; }
    var fields := FieldsOf(root);
    var hooks: Events := map[];
    if "hooks" in fields {
      if !fields["hooks"].Obj? { return HooksNotObject; }
      hooks := fields["hooks"].fields;
    }
    var changed, cmd := false, HookCommand(binPath);
    ghost var was := hooks;
    for i := 0 to |events|
      invariant MergedHooks(was, events[..i], cmd) == Merged(hooks)
      invariant changed <==> hooks != was
    {
      var he := events[i];
      NextMerged(was, hooks, events, i, cmd);
      var entries: seq<Json> := [];
      if he.event in hooks {
        if !hooks[he.event].Arr? {
          RefusedEarly(was, events, i, cmd);
          return EventNotArray(he.event);
        }
        entries := hooks[he.event].items;
      }
      var updated, hookChanged := UpsertOurHook(entries, cmd, he);
      WrittenBack(was, hooks, he, entries, cmd);
      if hookChanged { hooks, changed := hooks[he.event := Arr(updated)], true; }
    }
    assert events[..|events|] == events;
    if !changed { return Ok(root, false); }
    return Ok(Obj(fields["hooks" := Obj(hooks)]), true);
  }

  lemma Untouched(hooks: Events, events: seq<HookEvent>, i: nat, cmd: string)
    requires Distinct(events) && i < |events| && MergedHooks(hooks, events[..i], cmd).Merged?
    ensures EntriesOf(MergedHooks(hooks, events[..i], cmd).hooks, events[i].event) == EntriesOf(hooks, events[i].event)
  {
    MergedAt(hooks, events[..i], cmd);
    assert events[..i + 1][..i] == events[..i];
    NamesGrow(events[..i + 1]);
  }

  /** The first event refused is the answer. */
  lemma {:induction false} RefusedEarly(hooks: Events, events: seq<HookEvent>, i: nat, cmd: string)
    requires i < |events| && MergedHooks(hooks, events[..i + 1], cmd) == Refused(events[i].event)
    ensures MergedHooks(hooks, events, cmd) == Refused(events[i].event)
    decreases |events|
  {
    if i + 1 == |events| {
      assert events[..i + 1] == events;
    } else {
      var front := events[..|events| - 1];
      assert front[..i + 1] == events[..i + 1];
      RefusedEarly(hooks, front, i, cmd);
    }
  }

  // ---------------------------------------------------------------- the three harnesses

  ghost predicate SameForeign(before: Events, after: Events, cmd: string) {
    forall event :: ForeignHooks(ListIn(after, event), cmd) == ForeignHooks(ListIn(before, event), cmd)
  }

  /**
   * What a merge of a whole settings file owes its caller: ours everywhere it belongs, all else as it
   * was, nothing to do the second time, and a refusal only of a list that is none.
   */
  ghost predicate Serves(root: Json, events: seq<HookEvent>, cmd: string, r: Outcome) {
    var before := HooksOf(FieldsOf(root));
    && (r.Ok? ==>
          && AllInstalled(HooksOf(FieldsOf(r.settings)), events, cmd)
          && (!r.changed <==> AllInstalled(before, events, cmd)) && (!r.changed ==> r.settings == root)
          && Merge(r.settings, events, cmd) == Ok(r.settings, false)
          && SameForeign(before, HooksOf(FieldsOf(r.settings)), cmd))
    && (r.EventNotArray? ==> r.event in Names(events) && EntriesOf(before, r.event).None?)
  }

  lemma MergeServes(root: Json, events: seq<HookEvent>, cmd: string)
    requires Distinct(events)
    ensures Serves(root, events, cmd, Merge(root, events, cmd))
  {
    var r := Merge(root, events, cmd);
    if r.Ok? {
      MergeIsIdempotent(root, events, cmd);
      MergeChangesExactly(root, events, cmd);
      MergeChangesExactly(r.settings, events, cmd);
      forall event
        ensures ForeignHooks(ListIn(HooksOf(FieldsOf(r.settings)), event), cmd) ==
          ForeignHooks(ListIn(HooksOf(FieldsOf(root)), event), cmd)
      {
        MergeKeepsForeign(root, events, cmd, event);
      }
    } else if r.EventNotArray? {
      MergeRefusesOnlyForeignShapes(HooksOf(FieldsOf(root)), events, cmd);
      RefusedIsListed(HooksOf(FieldsOf(root)), events, cmd);
    }
  }

  lemma {:induction false} RefusedIsListed(hooks: Events, events: seq<HookEvent>, cmd: string)
    requires MergedHooks(hooks, events, cmd).Refused?
    ensures MergedHooks(hooks, events, cmd).event in Names(events)
  {
    var front := events[..|events| - 1];
    if MergedHooks(hooks, front, cmd).Refused? {
      RefusedIsListed(hooks, front, cmd);
      assert forall i :: 0 <= i < |front| ==> front[i] == events[i];
    }
  }

  function Document(text: Option<Json>): Json {
    if text.Some? then text.value else Obj(map[])
  }

  method MergeClaudeHooks(text: Option<Json>, binPath: string) returns (r: Outcome)
    ensures Serves(Document(text), CLAUDE_EVENTS, HookCommand(binPath), r)
  {
    EventsAreDistinct();
    r := MergeHooks(text, binPath, CLAUDE_EVENTS);
    MergeServes(Document(text), CLAUDE_EVENTS, HookCommand(binPath));
  }

  method MergeCodexHooks(text: Option<Json>, binPath: string) returns (r: Outcome)
    ensures Serves(Document(text), CODEX_EVENTS, HookCommand(binPath), r)
  {
    EventsAreDistinct();
    r := MergeHooks(text, binPath, CODEX_EVENTS);
    MergeServes(Document(text), CODEX_EVENTS, HookCommand(binPath));
  }

  method MergeGrokHooks(text: Option<Json>, binPath: string) returns (r: Outcome)
    ensures Serves(Document(text), CLAUDE_EVENTS, HookCommand(binPath), r)
  {
    EventsAreDistinct();
    r := MergeHooks(text, binPath, CLAUDE_EVENTS);
    MergeServes(Document(text), CLAUDE_EVENTS, HookCommand(binPath));
  }

  // ---------------------------------------------------------------- removing

  predicate AnyOurs(entries: seq<Json>, cmd: string) {
    exists e :: e in entries && HoldsOurs(e, cmd)
  }

  /** A non-empty list that was entirely ours. */
  predicate Emptied(v: Json, cmd: string) {
    v.Arr? && v.items != [] && Residue(v.items, cmd) == []
  }

  function Cleaned(v: Json, cmd: string): Json {
    if v.Arr? then Arr(Residue(v.items, cmd)) else v
  }

  function RemovedHooks(hooks: Events, cmd: string): Events {
    map k | k in hooks && !Emptied(hooks[k], cmd) :: Cleaned(hooks[k], cmd)
  }

  predicate HoldsAny(hooks: Events, cmd: string) {
    exists k :: k in hooks && hooks[k].Arr? && AnyOurs(hooks[k].items, cmd)
  }

  function WithHooks(fields: Events, hooks: Events): Json {
    if hooks == map[] then Obj(fields - {"hooks"}) else Obj(fields["hooks" := Obj(hooks)])
  }

  function Remove(root: Json, binPath: string): Outcome {
    if binPath == "" then Ok(root, false)
    else if !root.Obj? && !root.Null? then NotAnObject
    else
      var fields, cmd := FieldsOf(root), HookCommand(binPath);
      if !HasHooks(fields) || !HoldsAny(HooksOf(fields), cmd) then Ok(root, false)
      else Ok(WithHooks(fields, RemovedHooks(HooksOf(fields), cmd)), true)
  }

  method RemoveFromList(entries: seq<Json>, cmd: string) returns (kept: seq<Json>, changed: bool)
    ensures kept == Residue(entries, cmd)
    ensures changed <==> AnyOurs(entries, cmd)
  {
    kept, changed := [], false;
    for i := 0 to |entries|
      invariant kept == Residue(entries[..i], cmd)
      invariant changed <==> exists j :: 0 <= j < i && HoldsOurs(entries[j], cmd)
    {
      var e := entries[i];
      assert entries[..i + 1][..i] == entries[..i];
      if Inner(e) == [] {
        kept := kept + [e];
        continue;
      }
      var keptInner := StripCommand(Inner(e), cmd);
      StrippedTells(e, cmd);
      if |keptInner| < |Inner(e)| { changed := true; }
      if keptInner == [] { continue; }
      kept := kept + [Obj(e.fields["hooks" := Arr(keptInner)])];
    }
    assert entries[..|entries|] == entries;
  }

  /** What stripping a group's hooks says about whose they were. */
  lemma StrippedTells(e: Json, cmd: string)
    requires Inner(e) != []
    ensures |Stripped(Inner(e), cmd)| < |Inner(e)| <==> HoldsOurs(e, cmd)
    ensures Stripped(Inner(e), cmd) == [] <==> PurelyOurs(e, cmd)
    ensures !HoldsOurs(e, cmd) ==> WithoutOurs(e, cmd) == e
  {
    StrippedExact(Inner(e), cmd);
    StrippedCounts(Inner(e), cmd);
    assert Inner(e)[0] in Inner(e);
    if !HoldsOurs(e, cmd) { assert e.fields["hooks" := Arr(Inner(e))] == e.fields; }
    assert Stripped(Inner(e), cmd) != [] ==> Stripped(Inner(e), cmd)[0] in Stripped(Inner(e), cmd);
  }

  lemma {:induction false} StrippedCounts(inner: seq<Json>, cmd: string)
    ensures |Stripped(inner, cmd)| <= |inner|
    ensures |Stripped(inner, cmd)| == |inner| <==> forall h :: h in inner ==> !IsOurs(h, cmd)
  {
    if inner != [] {
      StrippedCounts(inner[..|inner| - 1], cmd);
      assert inner == inner[..|inner| - 1] + [inner[|inner| - 1]];
    }
  }

  predicate OursAt(hooks: Events, k: string, cmd: string) {
    k in hooks && hooks[k].Arr? && AnyOurs(hooks[k].items, cmd)
  }

  method RemoveFromEvents(was: Events, cmd: string) returns (hooks: Events, changed: bool)
    ensures hooks == RemovedHooks(was, cmd)
    ensures changed <==> HoldsAny(was, cmd)
  {
    hooks, changed := was, false;
    var rest := was.Keys;
    while rest != {}
      invariant rest <= was.Keys && hooks.Keys <= was.Keys
      invariant forall k :: k in rest ==> k in hooks && hooks[k] == was[k]
      invariant forall k :: k in was && k !in rest ==> (k in hooks <==> !Emptied(was[k], cmd))
      invariant forall k :: k in hooks && k !in rest ==> hooks[k] == Cleaned(was[k], cmd)
      invariant changed <==> exists k :: k in was && k !in rest && OursAt(was, k, cmd)
      decreases rest
    {
      var event :| event in rest;
      rest := rest - {event};
      if !was[event].Arr? || was[event].items == [] { continue; }
      var kept, ours := RemoveFromList(was[event].items, cmd);
      changed := changed || ours;
      hooks := if kept == [] then hooks - {event} else hooks[event := Arr(kept)];
    }
    assert hooks.Keys == RemovedHooks(was, cmd).Keys;
  }

  /** RemoveHooks over a document. */
  method RemoveHooks(root: Json, binPath: string) returns (r: Outcome)
    ensures r == Remove(root, binPath)
  {
    if binPath == "" { return Ok(root, false); }
    if !root.Obj? && !root.Null? { return NotAnObject; }
    var fields := FieldsOf(root);
    if !HasHooks(fields) { return Ok(root, false); }
    var hooks, changed := RemoveFromEvents(HooksOf(fields), HookCommand(binPath));
    if !changed { return Ok(root, false); }
    return Ok(WithHooks(fields, hooks), true);
  }

  // ---------------------------------------------------------------- remove after merge

  function DropEmpty(hooks: Events): Events {
    map k | k in hooks && hooks[k] != Arr([]) :: hooks[k]
  }

  /** A document up to empty event lists, an empty hooks object, and null for no settings at all. */
  function Norm(root: Json): Json {
    if HasHooks(FieldsOf(root)) then WithHooks(FieldsOf(root), DropEmpty(HooksOf(FieldsOf(root))))
    else if root.Null? then Obj(map[])
    else root
  }

  lemma {:induction false} NothingOurs(entries: seq<Json>, cmd: string)
    requires !AnyOurs(entries, cmd)
    ensures Residue(entries, cmd) == entries
  {
    if entries != [] {
      var front := entries[..|entries| - 1];
      assert entries == front + [entries[|entries| - 1]];
      assert !HoldsOurs(entries[|entries| - 1], cmd);
      NothingOurs(front, cmd);
    }
  }

  /** When no list holds ours there is nothing to clean. */
  lemma NothingToRemove(hooks: Events, cmd: string)
    requires !HoldsAny(hooks, cmd)
    ensures RemovedHooks(hooks, cmd) == hooks
  {
    forall k | k in hooks ensures !Emptied(hooks[k], cmd) && Cleaned(hooks[k], cmd) == hooks[k] {
      if hooks[k].Arr? { NothingOurs(hooks[k].items, cmd); }
    }
  }

  /** What removal leaves, up to emptiness, is the cleaned lists that are not empty. */
  lemma RemoveNorm(fields: Events, binPath: string)
    requires binPath != "" && HasHooks(fields)
    ensures Remove(Obj(fields), binPath).Ok?
    ensures Norm(Remove(Obj(fields), binPath).settings) ==
      WithHooks(fields, DropEmpty(RemovedHooks(HooksOf(fields), HookCommand(binPath))))
  {
    var hooks, cmd := HooksOf(fields), HookCommand(binPath);
    var cleaned := RemovedHooks(hooks, cmd);
    if !HoldsAny(hooks, cmd) {
      NothingToRemove(hooks, cmd);
    } else if cleaned == map[] {
      assert DropEmpty(cleaned) == map[];
    } else {
      var left := Obj(DropEmpty(cleaned));
      assert fields["hooks" := Obj(cleaned)]["hooks" := left] == fields["hooks" := left];
      assert fields["hooks" := Obj(cleaned)] - {"hooks"} == fields - {"hooks"};
    }
  }

  /** The cleaned, non-empty lists are the same with and without the merge. */
  lemma CleanedAgree(hooks: Events, m: Events, events: seq<HookEvent>, cmd: string)
    requires MergedFrom(hooks, m, events, cmd)
    ensures DropEmpty(RemovedHooks(m, cmd)) == DropEmpty(RemovedHooks(hooks, cmd))
  {
    var a, b := DropEmpty(RemovedHooks(m, cmd)), DropEmpty(RemovedHooks(hooks, cmd));
    forall k ensures (k in a <==> k in b) && (k in a ==> a[k] == b[k]) {
      if i :| 0 <= i < |events| && events[i].event == k {
        assert Upserts(hooks, m, events[i], cmd);
        ListedAgrees(hooks, m, events[i], cmd);
      } else {
        assert k in m <==> k in hooks;
        UnlistedAgrees(hooks, m, k, cmd);
      }
    }
  }

  lemma UnlistedAgrees(hooks: Events, m: Events, k: string, cmd: string)
    requires (k in m <==> k in hooks) && (k in hooks ==> m[k] == hooks[k])
    ensures var a, b := DropEmpty(RemovedHooks(m, cmd)), DropEmpty(RemovedHooks(hooks, cmd));
      (k in a <==> k in b) && (k in a ==> a[k] == b[k])
  {
  }

  lemma ListedAgrees(hooks: Events, m: Events, he: HookEvent, cmd: string)
    requires Upserts(hooks, m, he, cmd)
    ensures var k, a, b := he.event, DropEmpty(RemovedHooks(m, cmd)), DropEmpty(RemovedHooks(hooks, cmd));
      (k in a <==> k in b) && (k in a ==> a[k] == b[k])
  {
    UpsertKeepsResidue(ListIn(hooks, he.event), cmd, he);
    CleanedList(m, he.event, cmd);
    CleanedList(hooks, he.event, cmd);
  }

  /** A listed event survives cleaning with exactly its residue, when there is any. */
  lemma CleanedList(hooks: Events, k: string, cmd: string)
    requires EntriesOf(hooks, k).Some?
    ensures var a := DropEmpty(RemovedHooks(hooks, cmd));
      && (k in a <==> Residue(ListIn(hooks, k), cmd) != [])
      && (k in a ==> a[k] == Arr(Residue(ListIn(hooks, k), cmd)))
  {
  }

  lemma NothingWritten(hooks: Events, m: Events, events: seq<HookEvent>, cmd: string)
    requires MergedFrom(hooks, m, events, cmd)
    requires forall i :: 0 <= i < |events| ==> events[i].event in hooks && m[events[i].event] == hooks[events[i].event]
    ensures m == hooks
  {
    assert m.Keys == hooks.Keys;
  }

  /** A merge that rewrote something shows, even up to emptiness: the lists it writes are never empty. */
  lemma MergeShows(hooks: Events, m: Events, events: seq<HookEvent>, cmd: string)
    requires MergedFrom(hooks, m, events, cmd) && m != hooks
    ensures DropEmpty(m) != DropEmpty(hooks) && DropEmpty(m) != map[]
  {
    if i :| 0 <= i < |events| && !(events[i].event in hooks && m[events[i].event] == hooks[events[i].event]) {
      assert Upserts(hooks, m, events[i], cmd);
      UpsertInstalls(ListIn(hooks, events[i].event), cmd, events[i]);
      assert m[events[i].event] != Arr([]) && events[i].event in DropEmpty(m);
    } else {
      NothingWritten(hooks, m, events, cmd);
    }
  }

  lemma RemoveAgrees(root: Json, binPath: string, events: seq<HookEvent>, merged: Events)
    requires binPath != "" && (root.Obj? || root.Null?) && ("hooks" in FieldsOf(root) ==> HasHooks(FieldsOf(root)))
    requires MergedFrom(HooksOf(FieldsOf(root)), merged, events, HookCommand(binPath))
    ensures var after := Remove(Obj(FieldsOf(root)["hooks" := Obj(merged)]), binPath);
      after.Ok? && Remove(root, binPath).Ok? && Norm(after.settings) == Norm(Remove(root, binPath).settings)
  {
    var fields := FieldsOf(root);
    var fields' := fields["hooks" := Obj(merged)];
    CleanedAgree(HooksOf(fields), merged, events, HookCommand(binPath));
    RemoveNorm(fields', binPath);
    RemoveNormRoot(root, binPath);
    SameRest(fields, Obj(merged), DropEmpty(RemovedHooks(merged, HookCommand(binPath))));
  }

  lemma SameRest(fields: Events, v: Json, hooks: Events)
    ensures WithHooks(fields["hooks" := v], hooks) == WithHooks(fields, hooks)
  {
    assert fields["hooks" := v] - {"hooks"} == fields - {"hooks"};
    assert fields["hooks" := v]["hooks" := Obj(hooks)] == fields["hooks" := Obj(hooks)];
  }

  /** What a merge that changed something wrote. */
  lemma ChangedMerge(root: Json, events: seq<HookEvent>, cmd: string) returns (merged: Events)
    requires Distinct(events) && Merge(root, events, cmd).Ok? && Merge(root, events, cmd).changed
    ensures MergedFrom(HooksOf(FieldsOf(root)), merged, events, cmd) && merged != HooksOf(FieldsOf(root))
    ensures Merge(root, events, cmd).settings == Obj(FieldsOf(root)["hooks" := Obj(merged)])
    ensures (root.Obj? || root.Null?) && ("hooks" in FieldsOf(root) ==> HasHooks(FieldsOf(root)))
  {
    merged := MergedHooks(HooksOf(FieldsOf(root)), events, cmd).hooks;
    MergedAt(HooksOf(FieldsOf(root)), events, cmd);
  }

  /** Every listed event's list holds ours, right, and is left alone by a merge. */
  predicate AllInstalled(hooks: Events, events: seq<HookEvent>, cmd: string) {
    forall i :: 0 <= i < |events| ==> Installed(ListIn(hooks, events[i].event), cmd, events[i])
  }

  /** A merge finds nothing to do exactly when everything was installed before it came. */
  lemma MergeChangesExactly(root: Json, events: seq<HookEvent>, cmd: string)
    requires Distinct(events) && Merge(root, events, cmd).Ok?
    ensures !Merge(root, events, cmd).changed <==> AllInstalled(HooksOf(FieldsOf(root)), events, cmd)
  {
    var hooks, m := HooksOf(FieldsOf(root)), MergedHooks(HooksOf(FieldsOf(root)), events, cmd).hooks;
    MergedAt(hooks, events, cmd);
    forall i | 0 <= i < |events|
      ensures Installed(ListIn(hooks, events[i].event), cmd, events[i]) <==>
        events[i].event in hooks && m[events[i].event] == hooks[events[i].event]
    {
      assert Upserts(hooks, m, events[i], cmd);
      UpsertChanges(ListIn(hooks, events[i].event), cmd, events[i]);
    }
    if AllInstalled(hooks, events, cmd) { NothingWritten(hooks, m, events, cmd); }
  }

  /**
   * Removing after a merge is removing alone, up to empty lists and objects: always, unless the
   * binary path is empty and some listed event lacked ours, because removal refuses an empty path.
   */
  lemma RemoveUndoesMerge(root: Json, binPath: string, events: seq<HookEvent>)
    requires Distinct(events) && Merge(root, events, HookCommand(binPath)).Ok?
    ensures var m := Merge(root, events, HookCommand(binPath));
      && Remove(m.settings, binPath).Ok? && Remove(root, binPath).Ok?
      && (Norm(Remove(m.settings, binPath).settings) == Norm(Remove(root, binPath).settings)
          <==> binPath != "" || AllInstalled(HooksOf(FieldsOf(root)), events, HookCommand(binPath)))
  {
    MergeChangesExactly(root, events, HookCommand(binPath));
    if Merge(root, events, HookCommand(binPath)).changed {
      var merged := ChangedMerge(root, events, HookCommand(binPath));
      if binPath == "" {
        MergeShows(HooksOf(FieldsOf(root)), merged, events, HookCommand(binPath));
        NormsDiffer(root, merged);
      } else {
        RemoveAgrees(root, binPath, events, merged);
      }
    }
  }

  /** With an empty path, what a merge writes into an empty document stays there. */
  lemma EmptyPathIsNotUndone()
    ensures var empty := Obj(map[]);
      var m := Merge(empty, CLAUDE_EVENTS, HookCommand(""));
      && m.Ok? && m.changed && Remove(m.settings, "") == Ok(m.settings, false)
      && Norm(m.settings) != Norm(Remove(empty, "").settings)
  {
    var empty, cmd := Obj(map[]), HookCommand("");
    EventsAreDistinct();
    AllListsMerge(map[], CLAUDE_EVENTS, cmd);
    assert !Installed(ListIn(map[], CLAUDE_EVENTS[0].event), cmd, CLAUDE_EVENTS[0]);
    MergeChangesExactly(empty, CLAUDE_EVENTS, cmd);
    RemoveUndoesMerge(empty, "", CLAUDE_EVENTS);
  }

  lemma NormsDiffer(root: Json, merged: Events)
    requires (root.Obj? || root.Null?) && DropEmpty(merged) != map[]
    requires DropEmpty(merged) != DropEmpty(HooksOf(FieldsOf(root)))
    ensures Norm(Obj(FieldsOf(root)["hooks" := Obj(merged)])) != Norm(root)
  {
    var n := Norm(Obj(FieldsOf(root)["hooks" := Obj(merged)]));
    assert n.Obj? && "hooks" in n.fields && n.fields["hooks"] == Obj(DropEmpty(merged));
  }

  /** Removal's result on any document that merging accepts. */
  lemma RemoveNormRoot(root: Json, binPath: string)
    requires binPath != "" && (root.Obj? || root.Null?) && ("hooks" in FieldsOf(root) ==> HasHooks(FieldsOf(root)))
    ensures Norm(Remove(root, binPath).settings) ==
      WithHooks(FieldsOf(root), DropEmpty(RemovedHooks(HooksOf(FieldsOf(root)), HookCommand(binPath))))
  {
    if HasHooks(FieldsOf(root)) {
      RemoveNorm(FieldsOf(root), binPath);
    } else {
      assert FieldsOf(root) - {"hooks"} == FieldsOf(root);
    }
  }

  /** Removal takes out every hook of ours and no other. */
  lemma RemoveLeavesForeign(root: Json, binPath: string, event: string)
    requires binPath != "" && (root.Obj? || root.Null?) && HasHooks(FieldsOf(root))
    ensures Remove(root, binPath).Ok?
    ensures var cmd, before := HookCommand(binPath), HooksOf(FieldsOf(root));
      var after := HooksOf(FieldsOf(Remove(root, binPath).settings));
      && ForeignHooks(ListIn(after, event), cmd) == ForeignHooks(ListIn(before, event), cmd)
      && !AnyOurs(ListIn(after, event), cmd)
  {
    var cmd, before := HookCommand(binPath), HooksOf(FieldsOf(root));
    if HoldsAny(before, cmd) {
      ResidueKeepsForeign(ListIn(before, event), cmd);
    } else if event in before {
      assert !OursAt(before, event, cmd);
    }
  }

  predicate WasAllOurs(v: Json, cmd: string) {
    v.Arr? && v.items != [] && Residue(v.items, cmd) == []
  }

  /** Removal touches nothing but the lists that hold ours, and drops a list only when it was all ours. */
  lemma RemoveTouchesOnlyOurs(root: Json, binPath: string, event: string)
    requires binPath != "" && (root.Obj? || root.Null?) && HasHooks(FieldsOf(root))
    ensures var r := Remove(root, binPath); r.Ok?
    ensures var cmd, before, r := HookCommand(binPath), HooksOf(FieldsOf(root)), Remove(root, binPath);
      var after := HooksOf(FieldsOf(r.settings));
      && FieldsOf(r.settings) - {"hooks"} == FieldsOf(root) - {"hooks"}
      && (r.changed <==> exists k :: k in before && before[k].Arr? && AnyOurs(before[k].items, cmd))
      && (!r.changed ==> r.settings == root)
      && (event in after ==> event in before)
      && (r.changed && event in before ==> (event !in after <==> WasAllOurs(before[event], cmd)))
      && (r.changed && event in before && before[event].Arr? && !WasAllOurs(before[event], cmd) ==>
            after[event] == Arr(Residue(before[event].items, cmd)))
      && (event in before && !before[event].Arr? ==> event in after && after[event] == before[event])
  {
    var cmd, fields := HookCommand(binPath), FieldsOf(root);
    assert fields["hooks" := Obj(RemovedHooks(HooksOf(fields), cmd))] - {"hooks"} == fields - {"hooks"};
  }
}
