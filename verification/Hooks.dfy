/** Installing our hooks into a harness's settings and taking them out again, among everybody else's. */
module Hooks {
  import opened Wire

  datatype Json =
    | Null | Bool(b: bool) | Num(n: real) | Str(s: string)
    | Arr(items: seq<Json>) | Obj(fields: map<string, Json>)

  datatype HookEvent = HookEvent(event: string, matcher: string)

  /** Our hook is known by its command alone; a path with a space is quoted for the shell. */
  function HookCommand(binPath: string): (cmd: string)
    ensures cmd != ""
  {
    if ' ' in binPath then "\"" + binPath + "\" hook" else binPath + " hook"
  }

  function TimeoutFor(event: string): int {
    if event == "SessionEnd" || event == "Interrupt" then 3 else 5
  }

  /** A path with a space is quoted, and any other stands as it is. */
  lemma CommandIsQuoted(binPath: string)
    ensures (exists i :: 0 <= i < |binPath| && binPath[i] == ' ') ==>
      HookCommand(binPath) == ['"'] + binPath + ['"'] + " hook"
    ensures (forall i :: 0 <= i < |binPath| ==> binPath[i] != ' ') ==> HookCommand(binPath) == binPath + " hook"
  {
    assert "\"" == ['"'];
    assert ['"'] + binPath + ['"'] + " hook" == "\"" + binPath + "\" hook";
  }

  // ---------------------------------------------------------------- one group

  predicate IsOurs(h: Json, cmd: string) {
    h.Obj? && "command" in h.fields && h.fields["command"] == Str(cmd)
  }

  /** The hooks of a group; anything that is not a group with a list has none. */
  function Inner(e: Json): seq<Json> {
    if e.Obj? && "hooks" in e.fields && e.fields["hooks"].Arr? then e.fields["hooks"].items else []
  }

  predicate HoldsOurs(e: Json, cmd: string) {
    exists h :: h in Inner(e) && IsOurs(h, cmd)
  }

  predicate PurelyOurs(e: Json, cmd: string) {
    HoldsOurs(e, cmd) && forall h :: h in Inner(e) ==> IsOurs(h, cmd)
  }

  function GroupMatcher(e: Json): string {
    if e.Obj? && "matcher" in e.fields && e.fields["matcher"].Str? then e.fields["matcher"].s else ""
  }

  /** A conversion to an integer truncates toward zero. */
  function Truncated(n: real): int { if n >= 0.0 then n.Floor else -((-n).Floor) }

  function GroupTimeout(inner: seq<Json>): int {
    if inner != [] && inner[0].Obj? && "timeout" in inner[0].fields && inner[0].fields["timeout"].Num?
    then Truncated(inner[0].fields["timeout"].n) else 0
  }

  function Stripped(inner: seq<Json>, cmd: string): seq<Json> {
    if inner == [] then []
    else Stripped(inner[..|inner| - 1], cmd) + (if IsOurs(inner[|inner| - 1], cmd) then [] else [inner[|inner| - 1]])
  }

  lemma {:induction false} StrippedMembers(inner: seq<Json>, cmd: string, h: Json)
    ensures h in Stripped(inner, cmd) <==> h in inner && !IsOurs(h, cmd)
  {
    if inner != [] {
      var front := inner[..|inner| - 1];
      StrippedMembers(front, cmd, h);
      assert inner == front + [inner[|inner| - 1]];
    }
  }

  lemma {:induction false} StrippedSame(inner: seq<Json>, cmd: string)
    requires forall h :: h in inner ==> !IsOurs(h, cmd)
    ensures Stripped(inner, cmd) == inner
  {
    if inner != [] {
      StrippedSame(inner[..|inner| - 1], cmd);
      assert inner == inner[..|inner| - 1] + [inner[|inner| - 1]];
    }
  }

  lemma StrippedExact(inner: seq<Json>, cmd: string)
    ensures forall h :: h in Stripped(inner, cmd) <==> h in inner && !IsOurs(h, cmd)
    ensures (forall h :: h in inner ==> !IsOurs(h, cmd)) ==> Stripped(inner, cmd) == inner
  {
    forall h ensures h in Stripped(inner, cmd) <==> h in inner && !IsOurs(h, cmd) { StrippedMembers(inner, cmd, h); }
    if forall h :: h in inner ==> !IsOurs(h, cmd) { StrippedSame(inner, cmd); }
  }

  function WithoutOurs(e: Json, cmd: string): Json
    requires e.Obj?
  {
    Obj(e.fields["hooks" := Arr(Stripped(Inner(e), cmd))])
  }

  function Canonical(cmd: string, he: HookEvent): Json {
    var timeout := Num(TimeoutFor(he.event) as real);
    Obj(map["matcher" := Str(he.matcher),
            "hooks" := Arr([Obj(map["type" := Str("command"), "command" := Str(cmd), "timeout" := timeout])])])
  }

  /** Ours alone, with the matcher and timeout the event calls for. */
  predicate Right(e: Json, cmd: string, he: HookEvent) {
    PurelyOurs(e, cmd) && GroupMatcher(e) == he.matcher && GroupTimeout(Inner(e)) == TimeoutFor(he.event)
  }

  lemma CanonicalIsRight(cmd: string, he: HookEvent)
    ensures Right(Canonical(cmd, he), cmd, he)
  {
    var inner := Inner(Canonical(cmd, he));
    assert inner[0] in inner && IsOurs(inner[0], cmd);
    assert (TimeoutFor(he.event) as real).Floor == TimeoutFor(he.event);
  }

  // ---------------------------------------------------------------- one event's list

  /** What an entry of the list becomes: a wrong group of ours is replaced, a mixed one loses ours. */
  function Fixed(e: Json, cmd: string, he: HookEvent): Json {
    if !HoldsOurs(e, cmd) || Right(e, cmd, he) then e
    else if PurelyOurs(e, cmd) then Canonical(cmd, he)
    else WithoutOurs(e, cmd)
  }

  function FixedAll(entries: seq<Json>, cmd: string, he: HookEvent): seq<Json> {
    if entries == [] then []
    else FixedAll(entries[..|entries| - 1], cmd, he) + [Fixed(entries[|entries| - 1], cmd, he)]
  }

  predicate SomePure(entries: seq<Json>, cmd: string) {
    exists e :: e in entries && PurelyOurs(e, cmd)
  }

  function Upserted(entries: seq<Json>, cmd: string, he: HookEvent): seq<Json> {
    FixedAll(entries, cmd, he) + (if SomePure(entries, cmd) then [] else [Canonical(cmd, he)])
  }

  lemma {:induction false} FixedAllAt(entries: seq<Json>, cmd: string, he: HookEvent)
    ensures |FixedAll(entries, cmd, he)| == |entries|
    ensures forall i :: 0 <= i < |entries| ==> FixedAll(entries, cmd, he)[i] == Fixed(entries[i], cmd, he)
  {
    if entries != [] { FixedAllAt(entries[..|entries| - 1], cmd, he); }
  }

  lemma WithoutOursHasNone(e: Json, cmd: string)
    requires HoldsOurs(e, cmd)
    ensures Inner(WithoutOurs(e, cmd)) == Stripped(Inner(e), cmd) && !HoldsOurs(WithoutOurs(e, cmd), cmd)
    ensures WithoutOurs(e, cmd) != e
  {
    StrippedExact(Inner(e), cmd);
  }

  /** A fixed entry that still holds ours is right, and fixing changes exactly the entries that held ours wrongly. */
  lemma FixedIsRight(e: Json, cmd: string, he: HookEvent)
    ensures HoldsOurs(Fixed(e, cmd, he), cmd) ==> Right(Fixed(e, cmd, he), cmd, he)
    ensures Fixed(e, cmd, he) == e <==> !HoldsOurs(e, cmd) || Right(e, cmd, he)
    ensures PurelyOurs(Fixed(e, cmd, he), cmd) <==> PurelyOurs(e, cmd)
  {
    CanonicalIsRight(cmd, he);
    if HoldsOurs(e, cmd) && !PurelyOurs(e, cmd) { WithoutOursHasNone(e, cmd); }
  }

  /** Every group that holds ours is right, and there is one. */
  predicate Installed(entries: seq<Json>, cmd: string, he: HookEvent) {
    && (forall e :: e in entries && HoldsOurs(e, cmd) ==> Right(e, cmd, he))
    && SomePure(entries, cmd)
  }

  lemma UpsertedAt(entries: seq<Json>, cmd: string, he: HookEvent, i: nat)
    requires i < |entries|
    ensures |Upserted(entries, cmd, he)| >= |entries|
    ensures var e' := Upserted(entries, cmd, he)[i];
      && (HoldsOurs(e', cmd) ==> Right(e', cmd, he))
      && (e' == entries[i] <==> !HoldsOurs(entries[i], cmd) || Right(entries[i], cmd, he))
      && (PurelyOurs(e', cmd) <==> PurelyOurs(entries[i], cmd))
  {
    FixedAllAt(entries, cmd, he);
    FixedIsRight(entries[i], cmd, he);
  }

  lemma UpsertInstalls(entries: seq<Json>, cmd: string, he: HookEvent)
    ensures Installed(Upserted(entries, cmd, he), cmd, he)
  {
    var out := Upserted(entries, cmd, he);
    FixedAllAt(entries, cmd, he);
    CanonicalIsRight(cmd, he);
    forall i | 0 <= i < |out| ensures HoldsOurs(out[i], cmd) ==> Right(out[i], cmd, he) {
      if i < |entries| { UpsertedAt(entries, cmd, he, i); }
    }
    if e :| e in entries && PurelyOurs(e, cmd) {
      var i :| 0 <= i < |entries| && entries[i] == e;
      UpsertedAt(entries, cmd, he, i);
      assert out[i] in out && PurelyOurs(out[i], cmd);
    } else {
      assert out[|entries|] in out && PurelyOurs(out[|entries|], cmd);
    }
  }

  /** What an event nobody has hooked gets: one group, one command, five seconds, or three where a session must end. */
  lemma FreshInstall(cmd: string, he: HookEvent)
    ensures Upserted([], cmd, he) ==
      [Obj(map["matcher" := Str(he.matcher),
               "hooks" := Arr([Obj(map["type" := Str("command"), "command" := Str(cmd),
                                       "timeout" := Num(if he.event in {"SessionEnd", "Interrupt"} then 3.0
                                                        else 5.0)])])])]
  {
    assert Upserted([], cmd, he) == [Canonical(cmd, he)];
  }

  /** The list is rewritten exactly when it was not installed already. */
  lemma UpsertChanges(entries: seq<Json>, cmd: string, he: HookEvent)
    ensures Upserted(entries, cmd, he) == entries <==> Installed(entries, cmd, he)
  {
    var out := Upserted(entries, cmd, he);
    FixedAllAt(entries, cmd, he);
    forall i | 0 <= i < |entries|
      ensures out[i] == entries[i] <==> !HoldsOurs(entries[i], cmd) || Right(entries[i], cmd, he)
    {
      UpsertedAt(entries, cmd, he, i);
    }
  }

  lemma UpsertSettles(entries: seq<Json>, cmd: string, he: HookEvent)
    ensures Upserted(Upserted(entries, cmd, he), cmd, he) == Upserted(entries, cmd, he)
  {
    UpsertInstalls(entries, cmd, he);
    UpsertChanges(Upserted(entries, cmd, he), cmd, he);
  }

  // ---------------------------------------------------------------- what is foreign

  /** A list without ours: groups of ours alone go, mixed groups keep the rest, everything else stays. */
  function Residue(entries: seq<Json>, cmd: string): seq<Json> {
    if entries == [] then []
    else
      var e := entries[|entries| - 1];
      Residue(entries[..|entries| - 1], cmd) +
      (if PurelyOurs(e, cmd) then [] else if HoldsOurs(e, cmd) then [WithoutOurs(e, cmd)] else [e])
  }

  lemma ResidueAppend(entries: seq<Json>, e: Json, cmd: string)
    ensures Residue(entries + [e], cmd) == Residue(entries, cmd) +
      if PurelyOurs(e, cmd) then [] else if HoldsOurs(e, cmd) then [WithoutOurs(e, cmd)] else [e]
  {
    assert (entries + [e])[..|entries|] == entries;
  }

  lemma {:induction false} FixedAllResidue(entries: seq<Json>, cmd: string, he: HookEvent)
    ensures Residue(FixedAll(entries, cmd, he), cmd) == Residue(entries, cmd)
  {
    if entries != [] {
      var front, e := entries[..|entries| - 1], entries[|entries| - 1];
      FixedAllResidue(front, cmd, he);
      ResidueAppend(FixedAll(front, cmd, he), Fixed(e, cmd, he), cmd);
      FixedIsRight(e, cmd, he);
      if HoldsOurs(e, cmd) && !PurelyOurs(e, cmd) { WithoutOursHasNone(e, cmd); }
    }
  }

  lemma UpsertKeepsResidue(entries: seq<Json>, cmd: string, he: HookEvent)
    ensures Residue(Upserted(entries, cmd, he), cmd) == Residue(entries, cmd)
  {
    FixedAllResidue(entries, cmd, he);
    CanonicalIsRight(cmd, he);
    var fixed := FixedAll(entries, cmd, he);
    ResidueAppend(fixed, Canonical(cmd, he), cmd);
    assert fixed + [] == fixed && Residue(fixed, cmd) + [] == Residue(fixed, cmd);
  }

  lemma {:induction false} ResidueJoins(a: seq<Json>, b: seq<Json>, cmd: string)
    ensures Residue(a + b, cmd) == Residue(a, cmd) + Residue(b, cmd)
    decreases |b|
  {
    if b == [] {
      assert a + b == a && Residue(a, cmd) + [] == Residue(a, cmd);
    } else {
      var front, last := b[..|b| - 1], b[|b| - 1];
      ResidueJoins(a, front, cmd);
      assert a + b == (a + front) + [last];
      ResidueAppend(a + front, last, cmd);
      assert b == front + [last];
      ResidueAppend(front, last, cmd);
    }
  }

  /** Each entry is treated by itself: one without ours stays as it is, one of ours alone goes, another loses ours. */
  lemma ResidueIsLocal(a: seq<Json>, b: seq<Json>, e: Json, cmd: string)
    ensures Residue(a + b, cmd) == Residue(a, cmd) + Residue(b, cmd)
    ensures !HoldsOurs(e, cmd) ==> Residue([e], cmd) == [e]
    ensures (HoldsOurs(e, cmd) && forall h :: h in Inner(e) ==> IsOurs(h, cmd)) ==> Residue([e], cmd) == []
    ensures (HoldsOurs(e, cmd) && exists h :: h in Inner(e) && !IsOurs(h, cmd)) ==>
      Residue([e], cmd) == [Obj(e.fields["hooks" := Arr(Stripped(Inner(e), cmd))])]
  {
    ResidueJoins(a, b, cmd);
    assert [e] == [] + [e];
    ResidueAppend([], e, cmd);
  }

  /** A foreign hook, and the rest of the group it stands in. */
  datatype Foreign = Foreign(group: map<string, Json>, hook: Json)

  function ForeignIn(e: Json, inner: seq<Json>, cmd: string): seq<Foreign>
    requires e.Obj?
  {
    if inner == [] then []
    else
      var h := inner[|inner| - 1];
      ForeignIn(e, inner[..|inner| - 1], cmd) + (if IsOurs(h, cmd) then [] else [Foreign(e.fields - {"hooks"}, h)])
  }

  /** All foreign hooks of a list, in order, each with its group's matcher and other fields. */
  function ForeignHooks(entries: seq<Json>, cmd: string): seq<Foreign> {
    if entries == [] then []
    else
      var e := entries[|entries| - 1];
      ForeignHooks(entries[..|entries| - 1], cmd) + (if e.Obj? then ForeignIn(e, Inner(e), cmd) else [])
  }

  lemma {:induction false} ForeignInStripped(e: Json, e': Json, inner: seq<Json>, cmd: string)
    requires e.Obj? && e'.Obj? && e'.fields - {"hooks"} == e.fields - {"hooks"}
    ensures ForeignIn(e', Stripped(inner, cmd), cmd) == ForeignIn(e, inner, cmd)
    ensures (forall h :: h in inner ==> IsOurs(h, cmd)) ==> ForeignIn(e, inner, cmd) == []
  {
    if inner != [] {
      var front, h := inner[..|inner| - 1], inner[|inner| - 1];
      ForeignInStripped(e, e', front, cmd);
      assert inner == front + [h];
      assert (Stripped(front, cmd) + [h])[..|Stripped(front, cmd)|] == Stripped(front, cmd);
      assert Stripped(front, cmd) + [] == Stripped(front, cmd);
    }
  }

  /** Taking ours out of a list keeps every foreign hook, in order, in a group of the same matcher. */
  lemma {:induction false} ResidueKeepsForeign(entries: seq<Json>, cmd: string)
    ensures ForeignHooks(Residue(entries, cmd), cmd) == ForeignHooks(entries, cmd)
    ensures forall e :: e in Residue(entries, cmd) ==> !HoldsOurs(e, cmd)
  {
    if entries != [] {
      var front, e := entries[..|entries| - 1], entries[|entries| - 1];
      ResidueKeepsForeign(front, cmd);
      var kept := Residue(front, cmd);
      if HoldsOurs(e, cmd) {
        var e' := WithoutOurs(e, cmd);
        WithoutOursHasNone(e, cmd);
        ForeignInStripped(e, e', Inner(e), cmd);
        assert (kept + [e'])[..|kept|] == kept;
      } else {
        assert (kept + [e])[..|kept|] == kept;
      }
      assert kept + [] == kept && ForeignHooks(kept, cmd) + [] == ForeignHooks(kept, cmd);
    }
  }

  // ---------------------------------------------------------------- the in-place loops

  method CommandInGroup(inner: seq<Json>, cmd: string) returns (ours: bool, onlyOurs: bool)
    ensures ours <==> exists h :: h in inner && IsOurs(h, cmd)
    ensures onlyOurs <==> ours && forall h :: h in inner ==> IsOurs(h, cmd)
  {
    var foreign := 0;
    ours := false;
    for i := 0 to |inner|
      invariant ours <==> exists j :: 0 <= j < i && IsOurs(inner[j], cmd)
      invariant foreign >= 0 && (foreign == 0 <==> forall j :: 0 <= j < i ==> IsOurs(inner[j], cmd))
    {
      if IsOurs(inner[i], cmd) { ours := true; } else { foreign := foreign + 1; }
    }
    onlyOurs := ours && foreign == 0;
  }

  method StripCommand(inner: seq<Json>, cmd: string) returns (kept: seq<Json>)
    ensures kept == Stripped(inner, cmd)
  {
    kept := [];
    for i := 0 to |inner|
      invariant kept == Stripped(inner[..i], cmd)
    {
      assert inner[..i + 1][..i] == inner[..i];
      if !IsOurs(inner[i], cmd) { kept := kept + [inner[i]]; }
    }
    assert inner[..|inner|] == inner;
  }

  /** A group that holds ours and is not right for the event. */
  predicate Wrong(e: Json, cmd: string, he: HookEvent) { HoldsOurs(e, cmd) && !Right(e, cmd, he) }

  predicate SomeWrong(entries: seq<Json>, cmd: string, he: HookEvent) {
    exists e :: e in entries && Wrong(e, cmd, he)
  }

  lemma InstalledUnlessWrong(entries: seq<Json>, cmd: string, he: HookEvent)
    ensures Installed(entries, cmd, he) <==> !SomeWrong(entries, cmd, he) && SomePure(entries, cmd)
  {
  }

  lemma NextEntry(entries: seq<Json>, i: nat, cmd: string, he: HookEvent)
    requires i < |entries|
    ensures FixedAll(entries[..i + 1], cmd, he) == FixedAll(entries[..i], cmd, he) + [Fixed(entries[i], cmd, he)]
    ensures SomePure(entries[..i + 1], cmd) <==> SomePure(entries[..i], cmd) || PurelyOurs(entries[i], cmd)
    ensures SomeWrong(entries[..i + 1], cmd, he) <==> SomeWrong(entries[..i], cmd, he) || Wrong(entries[i], cmd, he)
  {
    assert entries[..i + 1][..i] == entries[..i];
    assert forall x :: x in entries[..i + 1] <==> x in entries[..i] || x == entries[i];
  }

  method UpsertOurHook(entries: seq<Json>, cmd: string, he: HookEvent) returns (out: seq<Json>, changed: bool)
    ensures out == Upserted(entries, cmd, he)
    ensures changed <==> out != entries
  {
    var need := true;
    out, changed := [], false;
    for i := 0 to |entries|
      invariant out == FixedAll(entries[..i], cmd, he)
      invariant need <==> !SomePure(entries[..i], cmd)
      invariant changed <==> SomeWrong(entries[..i], cmd, he)
    {
      var e := entries[i];
      NextEntry(entries, i, cmd, he);
      var ours, onlyOurs := CommandInGroup(Inner(e), cmd);
      if !ours {
        out := out + [e];
      } else if onlyOurs && GroupMatcher(e) == he.matcher && GroupTimeout(Inner(e)) == TimeoutFor(he.event) {
        out, need := out + [e], false;
      } else if onlyOurs {
        out, need, changed := out + [Canonical(cmd, he)], false, true;
      } else {
        var kept := StripCommand(Inner(e), cmd);
        out, changed := out + [Obj(e.fields["hooks" := Arr(kept)])], true;
      }
    }
    assert entries[..|entries|] == entries;
    UpsertChanges(entries, cmd, he);
    InstalledUnlessWrong(entries, cmd, he);
    if need { out, changed := out + [Canonical(cmd, he)], true; }
  }
}
