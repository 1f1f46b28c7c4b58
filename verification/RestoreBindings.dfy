/**
 Restoring a Profile over a current one (internal/cli/profile_history.go:783-984): a
 historical Profile keeps its portable intent, but every machine-local binding in it
 is replaced by the current Profile's, or reported as needed.
 */
module RestoreBindings {
  import opened Options

  /** A selected Skill; its source is the local part. */
  datatype Skill = Skill(source: string, path: string)

  /**
   A path, exclusion, executable or environment entry. `shape` lists the fields that
   must agree for a binding to be reused, the reference kind among them; `binding`
   is the path, or the secret reference.
   */
  datatype Entry = Entry(id: string, shape: seq<string>, local: bool, binding: string)

  datatype Overlay = Overlay(version: int, authRef: string)

  datatype Profile = Profile(
    skills: Option<seq<Skill>>,
    paths: Option<seq<Entry>>,
    exclusions: Option<seq<Entry>>,
    executables: Option<seq<Entry>>,
    environment: Option<seq<Entry>>,
    overlays: map<string, Overlay>)

  function Selected<T>(list: Option<seq<T>>): seq<T> { if list.None? then [] else list.value }

  // ----- what may be reused

  /** The first source a path is listed with. */
  function First(current: seq<Skill>, path: string): Option<string> {
    if current == [] then None
    else
      match First(current[..|current| - 1], path)
      case Some(source) => Some(source)
      case None => if current[|current| - 1].path == path then Some(current[|current| - 1].source) else None
  }

  predicate Ambiguous(current: seq<Skill>, path: string) {
    exists k | 0 <= k < |current| :: current[k].path == path && Some(current[k].source) != First(current, path)
  }

  /** The source of a path in the current Profile, unless it has none or several. */
  function SourceOf(current: seq<Skill>, path: string): Option<string> {
    if Ambiguous(current, path) then None else First(current, path)
  }

  /** The last entry of an ID: what a table filled in order holds. */
  function Bound(current: seq<Entry>, id: string): Option<Entry> {
    if current == [] then None
    else if current[|current| - 1].id == id then Some(current[|current| - 1])
    else Bound(current[..|current| - 1], id)
  }

  predicate Compatible(e: Entry, current: seq<Entry>) {
    var bound := Bound(current, e.id);
    bound.Some? && bound.value.shape == e.shape
  }

  function Rebound(e: Entry, current: seq<Entry>): Entry {
    if e.local && Compatible(e, current) then e.(binding := Bound(current, e.id).value.binding) else e
  }

  predicate Needs(e: Entry, current: seq<Entry>) { e.local && !Compatible(e, current) }

  function ReboundOverlay(id: string, o: Overlay, current: map<string, Overlay>): Overlay {
    if id in current then o.(authRef := current[id].authRef) else o
  }

  predicate OverlayNeeds(id: string, o: Overlay, current: map<string, Overlay>) { id !in current && o.authRef != "" }

  // ----- the result

  function Resourced(s: Skill, current: seq<Skill>): Skill {
    match SourceOf(current, s.path)
    case Some(source) => s.(source := source)
    case None => s
  }

  predicate SkillsPreserved(was: seq<Skill>, now: seq<Skill>, current: seq<Skill>, needs: bool) {
    && |now| == |was|
    && (forall i | 0 <= i < |was| :: now[i] == Resourced(was[i], current))
    && (needs <==> exists i | 0 <= i < |was| :: SourceOf(current, was[i].path).None?)
  }

  predicate EntriesPreserved(was: seq<Entry>, now: seq<Entry>, current: seq<Entry>, needs: bool) {
    && |now| == |was|
    && (forall i | 0 <= i < |was| :: now[i] == Rebound(was[i], current))
    && (needs <==> exists i | 0 <= i < |was| :: Needs(was[i], current))
  }

  predicate OverlaysPreserved(was: map<string, Overlay>, now: map<string, Overlay>, current: map<string, Overlay>,
      needs: bool)
  {
    && now.Keys == was.Keys
    && (forall id | id in was :: now[id] == ReboundOverlay(id, was[id], current))
    && (needs <==> exists id | id in was :: OverlayNeeds(id, was[id], current))
  }

  datatype Needed = Needed(skills: bool, paths: bool, exclusions: bool, executables: bool, environment: bool,
      overlays: bool)
  {
    predicate Any() { skills || paths || exclusions || executables || environment || overlays }
  }

  /** A capability the candidate does not have is left out. */
  predicate SamePresence<T>(was: Option<seq<T>>, now: Option<seq<T>>) { was.Some? == now.Some? }

  predicate Preserved(was: Profile, now: Profile, current: Profile, n: Needed) {
    && SamePresence(was.skills, now.skills) && SamePresence(was.paths, now.paths)
         && SamePresence(was.exclusions, now.exclusions)
    && SamePresence(was.executables, now.executables) && SamePresence(was.environment, now.environment)
    && SkillsPreserved(Selected(was.skills), Selected(now.skills), Selected(current.skills), n.skills)
    && EntriesPreserved(Selected(was.paths), Selected(now.paths), Selected(current.paths), n.paths)
    && EntriesPreserved(Selected(was.exclusions), Selected(now.exclusions), Selected(current.exclusions), n.exclusions)
    && EntriesPreserved(Selected(was.executables), Selected(now.executables), Selected(current.executables),
         n.executables)
    && EntriesPreserved(Selected(was.environment), Selected(now.environment), Selected(current.environment),
         n.environment)
    && OverlaysPreserved(was.overlays, now.overlays, current.overlays, n.overlays)
  }

  // ----- the edit in place

  class Candidate {
    var profile: Profile

    constructor (profile: Profile)
      ensures this.profile == profile
    {
      this.profile := profile;
    }

    /** The answer is whether any binding is still needed; the ghost answer says where. */
    method PreserveCurrentRestoreBindings(current: Profile) returns (needs: bool, ghost n: Needed)
      modifies this
      ensures Preserved(old(profile), profile, current, n) && needs == n.Any()
    {
      hide SkillsPreserved, EntriesPreserved, OverlaysPreserved;
      var skills, s := PreserveSkillList(profile.skills, Selected(current.skills));
      profile := profile.(skills := skills);
      var paths, p := PreserveEntryList(profile.paths, Selected(current.paths));
      profile := profile.(paths := paths);
      var exclusions, x := PreserveEntryList(profile.exclusions, Selected(current.exclusions));
      profile := profile.(exclusions := exclusions);
      var executables, e := PreserveEntryList(profile.executables, Selected(current.executables));
      profile := profile.(executables := executables);
      var environment, v := PreserveEntryList(profile.environment, Selected(current.environment));
      profile := profile.(environment := environment);
      var overlays, o := PreserveOverlays(profile.overlays, current.overlays);
      profile := profile.(overlays := overlays);
      needs, n := s || p || x || e || v || o, Needed(s, p, x, e, v, o);
    }
  }

  method PreserveSkillList(list: Option<seq<Skill>>, current: seq<Skill>) returns (now: Option<seq<Skill>>, needs: bool)
    ensures SamePresence(list, now) && SkillsPreserved(Selected(list), Selected(now), current, needs)
  {
    if list.None? { return None, false; }
    var skills;
    skills, needs := PreserveSkills(list.value, current);
    now := Some(skills);
  }

  method PreserveEntryList(list: Option<seq<Entry>>, current: seq<Entry>) returns (now: Option<seq<Entry>>, needs: bool)
    ensures SamePresence(list, now) && EntriesPreserved(Selected(list), Selected(now), current, needs)
  {
    if list.None? { return None, false; }
    var entries;
    entries, needs := PreserveEntries(list.value, current);
    now := Some(entries);
  }

  /** The table of sources: a path seen with two sources is ambiguous. */
  method Sources(current: seq<Skill>) returns (byPath: map<string, string>, ambiguous: set<string>)
    ensures forall path ::
        SourceOf(current, path) == if path in byPath && path !in ambiguous then Some(byPath[path]) else None
  {
    byPath, ambiguous := map[], {};
    for i := 0 to |current|
      invariant forall path :: First(current[..i], path) == if path in byPath then Some(byPath[path]) else None
      invariant forall path :: path in ambiguous <==> Ambiguous(current[..i], path)
    {
      var reference := current[i];
      assert current[..i + 1] == current[..i] + [reference];
      OneMoreSkill(current[..i], reference);
      hide First, Ambiguous;
      if reference.path in byPath && byPath[reference.path] != reference.source {
        ambiguous := ambiguous + {reference.path};
      } else {
        byPath := byPath[reference.path := reference.source];
      }
    }
    assert current[..|current|] == current;
  }

  lemma OneMoreSkill(current: seq<Skill>, s: Skill)
    ensures forall path ::
        First(current + [s], path) == if First(current, path).None? && path == s.path then Some(s.source)
        else First(current, path)
    ensures forall path :: Ambiguous(current + [s], path) <==>
              Ambiguous(current, path)
                || (path == s.path && First(current, path).Some? && First(current, path) != Some(s.source))
  {
    var more := current + [s];
    assert more[..|current|] == current;
    forall path
      ensures Ambiguous(more, path) <==>
                Ambiguous(current, path)
                  || (path == s.path && First(current, path).Some? && First(current, path) != Some(s.source))
    {
      if First(current, path).None? {
        FirstIsNone(current, path);
      }
      if Ambiguous(current, path) {
        var k :| 0 <= k < |current| && current[k].path == path && Some(current[k].source) != First(current, path);
        assert more[k] == current[k];
      }
      if path == s.path && First(current, path).Some? && First(current, path) != Some(s.source) {
        assert more[|current|] == s;
      }
      if Ambiguous(more, path) {
        var k :| 0 <= k < |more| && more[k].path == path && Some(more[k].source) != First(more, path);
        if k < |current| { assert current[k] == more[k]; }
      }
    }
  }

  lemma {:induction false} FirstIsNone(current: seq<Skill>, path: string)
    requires First(current, path).None?
    ensures forall k | 0 <= k < |current| :: current[k].path != path
  {
    if current != [] {
      FirstIsNone(current[..|current| - 1], path);
      assert forall k | 0 <= k < |current| - 1 :: current[..|current| - 1][k] == current[k];
    }
  }

  method PreserveSkills(selected: seq<Skill>, current: seq<Skill>) returns (now: seq<Skill>, needs: bool)
    ensures SkillsPreserved(selected, now, current, needs)
  {
    var byPath, ambiguous := Sources(current);
    hide SourceOf;
    now, needs := selected, false;
    for i := 0 to |selected|
      invariant |now| == |selected| && now[i..] == selected[i..]
      invariant forall k | 0 <= k < i :: now[k] == Resourced(selected[k], current)
      invariant needs <==> exists k | 0 <= k < i :: SourceOf(current, selected[k].path).None?
    {
      var path := selected[i].path;
      assert now[i] == selected[i];
      if path in byPath && path !in ambiguous {
        now := now[i := now[i].(source := byPath[path])];
      } else {
        needs := true;
      }
    }
  }

  method PreserveEntries(selected: seq<Entry>, current: seq<Entry>) returns (now: seq<Entry>, needs: bool)
    ensures EntriesPreserved(selected, now, current, needs)
  {
    var byId: map<string, Entry> := map[];
    for i := 0 to |current|
      invariant forall id :: Bound(current[..i], id) == if id in byId then Some(byId[id]) else None
    {
      assert current[..i + 1][..i] == current[..i];
      byId := byId[current[i].id := current[i]];
    }
    assert current[..|current|] == current;
    now, needs := selected, false;
    for i := 0 to |selected|
      invariant |now| == |selected| && now[i..] == selected[i..]
      invariant forall k | 0 <= k < i :: now[k] == Rebound(selected[k], current)
      invariant needs <==> exists k | 0 <= k < i :: Needs(selected[k], current)
    {
      var entry := now[i];
      assert entry == selected[i];
      if entry.id !in byId || byId[entry.id].shape != entry.shape {
        if entry.local { needs := true; }
      } else if entry.local {
        now := now[i := entry.(binding := byId[entry.id].binding)];
      }
    }
  }

  method PreserveOverlays(selected: map<string, Overlay>, current: map<string, Overlay>)
      returns (now: map<string, Overlay>, needs: bool)
    ensures OverlaysPreserved(selected, now, current, needs)
  {
    now, needs := selected, false;
    var ids := selected.Keys;
    while ids != {}
      invariant ids <= selected.Keys == now.Keys
      invariant forall id | id in selected ::
          now[id] == if id in ids then selected[id] else ReboundOverlay(id, selected[id], current)
      invariant needs <==> exists id | id in selected && id !in ids :: OverlayNeeds(id, selected[id], current)
      decreases |ids|
    {
      var id :| id in ids;
      ids := ids - {id};
      var overlay := now[id];
      if id in current {
        now := now[id := overlay.(authRef := current[id].authRef)];
      } else if overlay.authRef != "" {
        needs := true;
      }
    }
  }

  // ----- what it guarantees

  /**
   When nothing is needed, every local binding of the result is the current Profile's:
   each Skill has the one source current has for its path, each local entry the binding
   of the current entry of its ID and shape, each overlay current's reference or none.
   Everything portable is as it was.
   */
  lemma NothingHistoricalSurvives(was: Profile, now: Profile, current: Profile, n: Needed, i: nat, id: string)
    requires Preserved(was, now, current, n) && !n.Any()
    ensures SkillCurrent(Selected(was.skills), Selected(now.skills), Selected(current.skills), i)
    ensures EntryCurrent(Selected(was.paths), Selected(now.paths), Selected(current.paths), i)
    ensures EntryCurrent(Selected(was.exclusions), Selected(now.exclusions), Selected(current.exclusions), i)
    ensures EntryCurrent(Selected(was.executables), Selected(now.executables), Selected(current.executables), i)
    ensures EntryCurrent(Selected(was.environment), Selected(now.environment), Selected(current.environment), i)
    ensures id in now.overlays ==> now.overlays[id].version == was.overlays[id].version
                                   && now.overlays[id].authRef == if id in current.overlays
                                        then current.overlays[id].authRef else ""
  {
    SkillsAreCurrent(Selected(was.skills), Selected(now.skills), Selected(current.skills), i);
    EntriesAreCurrent(Selected(was.paths), Selected(now.paths), Selected(current.paths), i);
    EntriesAreCurrent(Selected(was.exclusions), Selected(now.exclusions), Selected(current.exclusions), i);
    EntriesAreCurrent(Selected(was.executables), Selected(now.executables), Selected(current.executables), i);
    EntriesAreCurrent(Selected(was.environment), Selected(now.environment), Selected(current.environment), i);
    hide EntriesPreserved, EntryCurrent, SkillsPreserved, SkillCurrent;
    if id in now.overlays {
      assert !OverlayNeeds(id, was.overlays[id], current.overlays);
    }
  }

  /** One Skill: its path as before, its source that of every current listing of the path, of which there is one. */
  predicate SkillCurrent(was: seq<Skill>, now: seq<Skill>, current: seq<Skill>, i: nat) {
    i < |now| ==>
      && i < |was| && now[i].path == was[i].path
      && (exists k | 0 <= k < |current| :: current[k].path == was[i].path)
      && (forall k | 0 <= k < |current| && current[k].path == was[i].path :: current[k].source == now[i].source)
  }

  lemma SkillsAreCurrent(was: seq<Skill>, now: seq<Skill>, current: seq<Skill>, i: nat)
    requires SkillsPreserved(was, now, current, false)
    ensures SkillCurrent(was, now, current, i)
  {
    if i < |now| {
      assert SourceOf(current, was[i].path).Some?;
      FirstIsListed(current, was[i].path);
    }
  }

  lemma {:induction false} FirstIsListed(current: seq<Skill>, path: string)
    requires First(current, path).Some?
    ensures exists k | 0 <= k < |current| :: current[k].path == path
  {
    var last := |current| - 1;
    if First(current[..last], path).Some? {
      FirstIsListed(current[..last], path);
      var k :| 0 <= k < last && current[..last][k].path == path;
      assert current[k].path == path;
    } else {
      assert current[last].path == path;
    }
  }

  /**
   One entry: its portable fields as before; its binding, if local, that of a current
   entry of the same ID and shape.
   */
  ghost predicate EntryCurrent(was: seq<Entry>, now: seq<Entry>, current: seq<Entry>, i: nat) {
    i < |now| ==>
      && i < |was| && now[i].id == was[i].id && now[i].shape == was[i].shape && now[i].local == was[i].local
      && (!now[i].local ==> now[i] == was[i])
      && (now[i].local ==>
           exists k ::
           0 <= k < |current| && current[k].id == was[i].id && current[k].shape == was[i].shape
           && current[k].binding == now[i].binding)
  }

  lemma {:induction false} BoundIsThere(current: seq<Entry>, id: string)
    requires Bound(current, id).Some?
    ensures Bound(current, id).value.id == id && exists k ::
        0 <= k < |current| && current[k] == Bound(current, id).value
  {
    var last := |current| - 1;
    if current[last].id != id {
      BoundIsThere(current[..last], id);
      var k :| 0 <= k < last && current[..last][k] == Bound(current, id).value;
      assert current[k] == Bound(current, id).value;
    } else {
      assert current[last] == Bound(current, id).value;
    }
  }

  lemma EntriesAreCurrent(was: seq<Entry>, now: seq<Entry>, current: seq<Entry>, i: nat)
    requires EntriesPreserved(was, now, current, false)
    ensures EntryCurrent(was, now, current, i)
  {
    if i < |now| && was[i].local {
      assert !Needs(was[i], current);
      BoundIsThere(current, was[i].id);
    }
  }

  // ----- what is needed, and what is reused

  /** The current Profile lists the path, with one source. */
  predicate OneSource(current: seq<Skill>, path: string, source: string) {
    && (exists k | 0 <= k < |current| :: current[k].path == path)
    && (forall k | 0 <= k < |current| && current[k].path == path :: current[k].source == source)
  }

  ghost predicate Sourceless(current: seq<Skill>, path: string) {
    forall source :: !OneSource(current, path, source)
  }

  /** Position k holds the current binding of an entry: the last of its ID, if it has the entry's shape. */
  predicate Provides(current: seq<Entry>, k: int, e: Entry) {
    && 0 <= k < |current| && current[k].id == e.id && current[k].shape == e.shape
    && forall j | k < j < |current| :: current[j].id != e.id
  }

  ghost predicate Unprovided(current: seq<Entry>, e: Entry) {
    forall k :: !Provides(current, k, e)
  }

  lemma {:induction false} FirstHasSource(current: seq<Skill>, path: string)
    requires First(current, path).Some?
    ensures exists k | 0 <= k < |current| :: current[k] == Skill(First(current, path).value, path)
  {
    var last := |current| - 1;
    if First(current[..last], path).Some? {
      FirstHasSource(current[..last], path);
      var k :| 0 <= k < last && current[..last][k] == Skill(First(current, path).value, path);
      assert current[k] == Skill(First(current, path).value, path);
    } else {
      assert current[last] == Skill(First(current, path).value, path);
    }
  }

  lemma SourceIsOne(current: seq<Skill>, path: string, source: string)
    ensures SourceOf(current, path) == Some(source) <==> OneSource(current, path, source)
  {
    if First(current, path).Some? { FirstHasSource(current, path); } else { FirstIsNone(current, path); }
  }

  lemma {:induction false} BoundIsLast(current: seq<Entry>, id: string, k: nat)
    requires k < |current| && current[k].id == id && forall j | k < j < |current| :: current[j].id != id
    ensures Bound(current, id) == Some(current[k])
  {
    if k < |current| - 1 { BoundIsLast(current[..|current| - 1], id, k); }
  }

  lemma {:induction false} LastIsBound(current: seq<Entry>, id: string) returns (k: nat)
    requires Bound(current, id).Some?
    ensures k < |current| && current[k] == Bound(current, id).value && current[k].id == id
    ensures forall j | k < j < |current| :: current[j].id != id
  {
    k := |current| - 1;
    if current[k].id != id { k := LastIsBound(current[..k], id); }
  }

  lemma EntryProvided(current: seq<Entry>, e: Entry)
    ensures Needs(e, current) <==> e.local && Unprovided(current, e)
    ensures forall k | Provides(current, k, e) ::
        Rebound(e, current) == if e.local then e.(binding := current[k].binding) else e
    ensures Unprovided(current, e) ==> Rebound(e, current) == e
  {
    if Compatible(e, current) {
      var k := LastIsBound(current, e.id);
      assert Provides(current, k, e);
    }
    forall k | Provides(current, k, e) ensures Bound(current, e.id) ==
        Some(current[k]) { BoundIsLast(current, e.id, k); }
  }

  /**
   A binding of a list is needed exactly when a local entry has none in the current
   one, and every other is reused.
   */
  ghost predicate ReusedExactly(was: seq<Entry>, now: seq<Entry>, current: seq<Entry>, needs: bool) {
    && |now| == |was|
    && (needs <==> exists i | 0 <= i < |was| :: was[i].local && Unprovided(current, was[i]))
    && (forall i, k | 0 <= i < |was| && Provides(current, k, was[i]) ::
         now[i] == if was[i].local then was[i].(binding := current[k].binding) else was[i])
    && (forall i | 0 <= i < |was| && Unprovided(current, was[i]) :: now[i] == was[i])
  }

  ghost predicate ResourcedExactly(was: seq<Skill>, now: seq<Skill>, current: seq<Skill>, needs: bool) {
    && |now| == |was|
    && (needs <==> exists i | 0 <= i < |was| :: Sourceless(current, was[i].path))
    && (forall i, source | 0 <= i < |was| && OneSource(current, was[i].path, source) ::
         now[i] == was[i].(source := source))
    && (forall i | 0 <= i < |was| && Sourceless(current, was[i].path) :: now[i] == was[i])
  }

  lemma EntriesReused(was: seq<Entry>, now: seq<Entry>, current: seq<Entry>, needs: bool)
    requires EntriesPreserved(was, now, current, needs)
    ensures ReusedExactly(was, now, current, needs)
  {
    hide Provides, Rebound, Needs;
    forall i | 0 <= i < |was| { EntryProvided(current, was[i]); }
  }

  lemma SkillsResourced(was: seq<Skill>, now: seq<Skill>, current: seq<Skill>, needs: bool)
    requires SkillsPreserved(was, now, current, needs)
    ensures ResourcedExactly(was, now, current, needs)
  {
    hide OneSource, SourceOf;
    forall i | 0 <= i < |was|
      ensures SourceOf(current, was[i].path).None? <==> Sourceless(current, was[i].path)
      ensures forall source | OneSource(current, was[i].path, source) :: SourceOf(current, was[i].path) == Some(source)
    {
      SourcesAreOne(current, was[i].path);
    }
  }

  lemma SourcesAreOne(current: seq<Skill>, path: string)
    ensures SourceOf(current, path).None? <==> Sourceless(current, path)
    ensures forall source | OneSource(current, path, source) :: SourceOf(current, path) == Some(source)
  {
    hide OneSource, SourceOf;
    forall source { SourceIsOne(current, path, source); }
    if SourceOf(current, path).Some? { SourceIsOne(current, path, SourceOf(current, path).value); }
  }

  /**
   A binding is needed exactly when the current Profile has none to reuse: no or several
   sources for a Skill's path, no entry of a local entry's ID whose shape agrees, no
   overlay where the historical one has a reference. Where it has one, it is reused.
   */
  lemma NeededExactly(was: Profile, now: Profile, current: Profile, n: Needed)
    requires Preserved(was, now, current, n)
    ensures ResourcedExactly(Selected(was.skills), Selected(now.skills), Selected(current.skills), n.skills)
    ensures ReusedExactly(Selected(was.paths), Selected(now.paths), Selected(current.paths), n.paths)
    ensures ReusedExactly(Selected(was.exclusions), Selected(now.exclusions), Selected(current.exclusions),
        n.exclusions)
    ensures ReusedExactly(Selected(was.executables), Selected(now.executables), Selected(current.executables),
              n.executables)
    ensures ReusedExactly(Selected(was.environment), Selected(now.environment), Selected(current.environment),
              n.environment)
    ensures n.overlays <==> exists id | id in was.overlays :: id !in current.overlays && was.overlays[id].authRef != ""
    ensures forall id | id in was.overlays :: id in now.overlays && now.overlays[id] ==
              if id in current.overlays then was.overlays[id].(authRef := current.overlays[id].authRef)
              else was.overlays[id]
  {
    SkillsResourced(Selected(was.skills), Selected(now.skills), Selected(current.skills), n.skills);
    EntriesReused(Selected(was.paths), Selected(now.paths), Selected(current.paths), n.paths);
    EntriesReused(Selected(was.exclusions), Selected(now.exclusions), Selected(current.exclusions), n.exclusions);
    EntriesReused(Selected(was.executables), Selected(now.executables), Selected(current.executables), n.executables);
    EntriesReused(Selected(was.environment), Selected(now.environment), Selected(current.environment), n.environment);
    hide EntriesPreserved, ReusedExactly, SkillsPreserved, ResourcedExactly;
  }

  /** Restoring again over the same current Profile changes nothing, and needs the same. */
  lemma PreservingIsIdempotent(was: Profile, now: Profile, again: Profile, current: Profile, n: Needed, n': Needed)
    requires Preserved(was, now, current, n) && Preserved(now, again, current, n')
    ensures again == now && n' == n
  {
    SkillsIdempotent(Selected(was.skills), Selected(now.skills), Selected(again.skills), Selected(current.skills),
      n.skills, n'.skills);
    EntriesIdempotent(Selected(was.paths), Selected(now.paths), Selected(again.paths), Selected(current.paths), n.paths,
      n'.paths);
    EntriesIdempotent(Selected(was.exclusions), Selected(now.exclusions), Selected(again.exclusions),
      Selected(current.exclusions), n.exclusions, n'.exclusions);
    EntriesIdempotent(Selected(was.executables), Selected(now.executables), Selected(again.executables),
      Selected(current.executables), n.executables, n'.executables);
    EntriesIdempotent(Selected(was.environment), Selected(now.environment), Selected(again.environment),
      Selected(current.environment), n.environment, n'.environment);
    OverlaysIdempotent(was.overlays, now.overlays, again.overlays, current.overlays, n.overlays, n'.overlays);
    hide SkillsPreserved, EntriesPreserved, OverlaysPreserved;
  }

  lemma SkillsIdempotent(was: seq<Skill>, now: seq<Skill>, again: seq<Skill>, current: seq<Skill>, n: bool, n': bool)
    requires SkillsPreserved(was, now, current, n) && SkillsPreserved(now, again, current, n')
    ensures again == now && n' == n
  {
    hide SourceOf;
    forall i | 0 <= i < |now| ensures again[i] == now[i]
        && SourceOf(current, now[i].path) == SourceOf(current, was[i].path)
    {
    }
  }

  lemma EntriesIdempotent(was: seq<Entry>, now: seq<Entry>, again: seq<Entry>, current: seq<Entry>, n: bool, n': bool)
    requires EntriesPreserved(was, now, current, n) && EntriesPreserved(now, again, current, n')
    ensures again == now && n' == n
  {
    forall i | 0 <= i < |now| ensures again[i] == now[i] && Needs(now[i], current) == Needs(was[i], current) {
    }
  }

  lemma OverlaysIdempotent(was: map<string, Overlay>, now: map<string, Overlay>, again: map<string, Overlay>,
      current: map<string, Overlay>, n: bool, n': bool)
    requires OverlaysPreserved(was, now, current, n) && OverlaysPreserved(now, again, current, n')
    ensures again == now && n' == n
  {
    forall id | id in was ensures again[id] == now[id]
        && OverlayNeeds(id, now[id], current) == OverlayNeeds(id, was[id], current)
    {
    }
  }
}
