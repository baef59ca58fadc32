/** The workspace registry: principals, workspaces, immutable revisions, numbered generations. */
module Registry {
  import opened Text
  import opened Json

  datatype Principal = Principal(key: string, email: Option<string>)

  datatype Placement = Placement(organization: string, environment: string, region: string)

  datatype Workspace = Workspace(
    workspaceId: string,
    principalKey: string,
    placement: Placement,
    createdAt: int,
    displayEmail: Option<string>,
    activeGeneration: Option<int>)

  datatype Revision = Revision(
    workspaceId: string,
    contentDigest: string,
    manifest: Json,
    createdAt: int,
    parentDigest: Option<string>)

  datatype Generation = Generation(
    workspaceId: string,
    number: int,
    contentDigest: string,
    activatedAt: int,
    note: string)

  datatype RevisionKey = RevisionKey(workspaceId: string, digest: string)

  /** What the registry knows. */
  datatype State = State(
    workspaces: map<string, Workspace>,
    byPrincipal: map<string, string>,
    revisions: map<RevisionKey, Revision>,
    generations: map<string, seq<Generation>>)

  const EMPTY := State(map[], map[], map[], map[])

  /** Deterministic workspace ids: UUIDv5 of the principal key under a fixed namespace. */
  type Derivation = string -> string

  // ---------------------------------------------------------------------------
  // Specification of the operations
  // ---------------------------------------------------------------------------

  function Generations(s: State, w: string): seq<Generation> {
    if w in s.generations then s.generations[w] else []
  }

  function NewWorkspace(derive: Derivation, p: Principal, placement: Placement, now: int): Workspace {
    Workspace(derive(p.key), p.key, placement, now, p.email, None)
  }

  function Ensure(s: State, derive: Derivation, p: Principal, placement: Placement, now: int): State {
    if p.key in s.byPrincipal then s
    else
      var w := derive(p.key);
      State(
        s.workspaces[w := NewWorkspace(derive, p, placement, now)],
        s.byPrincipal[p.key := w],
        s.revisions,
        s.generations[w := Generations(s, w)])
  }

  /** The workspace id that `ensure_workspace` answers with. */
  function HomeOf(s: State, derive: Derivation, key: string): string {
    if key in s.byPrincipal then s.byPrincipal[key] else derive(key)
  }

  function Owner(s: State, w: string): Option<string> {
    if w in s.workspaces then Some(s.workspaces[w].principalKey) else None
  }

  function RecordRevision(s: State, r: Revision): Result<State> {
    var key := RevisionKey(r.workspaceId, r.contentDigest);
    if r.workspaceId !in s.workspaces then Err(NotFound)
    else if key in s.revisions then Ok(s)
    else Ok(s.(revisions := s.revisions[key := r]))
  }

  function GetRevision(s: State, w: string, digest: string): Result<Revision> {
    var key := RevisionKey(w, digest);
    if key in s.revisions then Ok(s.revisions[key]) else Err(NotFound)
  }

  function NextNumber(gens: seq<Generation>): int {
    if gens == [] then 1 else gens[|gens| - 1].number + 1
  }

  function NewGeneration(s: State, w: string, digest: string, note: string, now: int): Generation {
    Generation(w, NextNumber(Generations(s, w)), digest, now, note)
  }

  function Activate(s: State, w: string, digest: string, note: string, now: int): Result<State> {
    if RevisionKey(w, digest) !in s.revisions then Err(NotFound)
    else if w !in s.workspaces then Err(BadValue)
    else
      var gen := NewGeneration(s, w, digest, note, now);
      Ok(s.(
        generations := s.generations[w := Generations(s, w) + [gen]],
        workspaces := s.workspaces[w := s.workspaces[w].(activeGeneration := Some(gen.number))]))
  }

  function ResolveActive(s: State, w: string): Result<Generation> {
    var gens := Generations(s, w);
    if gens == [] then Err(NotFound) else Ok(gens[|gens| - 1])
  }

  /** The first generation with the number, if there is one. */
  function FindGeneration(gens: seq<Generation>, number: int): Result<Generation> {
    if gens == [] then Err(NotFound)
    else if gens[0].number == number then Ok(gens[0])
    else FindGeneration(gens[1..], number)
  }

  function GetGeneration(s: State, w: string, number: int): Result<Generation> {
    FindGeneration(Generations(s, w), number)
  }

  // ---------------------------------------------------------------------------
  // Invariant
  // ---------------------------------------------------------------------------

  /** Generation numbers are list positions plus one, and every generation names a revision. */
  ghost predicate Numbered(s: State, w: string) {
    var gens := Generations(s, w);
    forall i :: 0 <= i < |gens| ==>
      && gens[i].number == i + 1
      && gens[i].workspaceId == w
      && RevisionKey(w, gens[i].contentDigest) in s.revisions
  }

  ghost predicate ActiveIsLast(s: State, w: string)
    requires w in s.workspaces
  {
    var gens := Generations(s, w);
    s.workspaces[w].activeGeneration == if gens == [] then None else Some(|gens|)
  }

  ghost predicate Inv(s: State) {
    && (forall w :: w in s.workspaces ==> s.workspaces[w].workspaceId == w && ActiveIsLast(s, w))
    && (forall w :: w in s.generations ==> w in s.workspaces && Numbered(s, w))
    && (forall k :: k in s.byPrincipal ==>
              s.byPrincipal[k] in s.workspaces && s.workspaces[s.byPrincipal[k]].principalKey == k)
    && (forall key :: key in s.revisions ==>
          && key.workspaceId in s.workspaces
          && s.revisions[key].workspaceId == key.workspaceId
          && s.revisions[key].contentDigest == key.digest)
  }

  lemma EmptyInv()
    ensures Inv(EMPTY)
  {
  }

  /** On first contact a principal gets the workspace of its derived id, with its own key and address, where it
      is placed and no generation active; a known principal changes nothing. */
  lemma FirstContactMakesWorkspace(s: State, derive: Derivation, p: Principal, placement: Placement, now: int)
    ensures var after := Ensure(s, derive, p, placement, now);
            if p.key in s.byPrincipal then after == s && HomeOf(s, derive, p.key) == s.byPrincipal[p.key]
            else
              var w := derive(p.key);
              && HomeOf(s, derive, p.key) == w
              && after.revisions == s.revisions
              && after.byPrincipal == s.byPrincipal[p.key := w]
              && after.workspaces
                 == s.workspaces[w := Workspace(w, p.key, placement, now, p.email, None)]
              && after.generations.Keys == s.generations.Keys + {w}
              && (forall v :: v in s.generations ==> after.generations[v] == s.generations[v])
              && (w !in s.generations ==> after.generations[w] == [])
  {
  }

  /** A first contact keeps the invariant when the derived id is not taken: its generations and
      pointer would be reset, and its owner replaced. */
  lemma EnsureKeepsInv(s: State, derive: Derivation, p: Principal, placement: Placement, now: int)
    requires Inv(s)
    requires p.key in s.byPrincipal || derive(p.key) !in s.workspaces
    ensures Inv(Ensure(s, derive, p, placement, now))
  {
    if p.key !in s.byPrincipal {
      var s' := Ensure(s, derive, p, placement, now);
      var w := derive(p.key);
      assert Generations(s', w) == [];
      forall v | v in s.workspaces && v != w ensures Generations(s', v) == Generations(s, v) {
      }
      forall v | v in s'.generations ensures v in s'.workspaces && Numbered(s', v) {
        assert v == w || Numbered(s, v);
      }
    }
  }

  lemma EnsureKeepsGenerations(s: State, derive: Derivation, p: Principal, placement: Placement, now: int)
    ensures forall w :: Generations(Ensure(s, derive, p, placement, now), w) == Generations(s, w)
  {
  }

  lemma RecordRevisionKeepsInv(s: State, r: Revision)
    requires Inv(s) && RecordRevision(s, r).Ok?
    ensures Inv(RecordRevision(s, r).value)
  {
    var s' := RecordRevision(s, r).value;
    forall v | v in s'.generations ensures v in s'.workspaces && Numbered(s', v) {
      assert Numbered(s, v);
    }
    forall v | v in s'.workspaces ensures ActiveIsLast(s', v) {
      assert ActiveIsLast(s, v);
    }
  }

  lemma ActivatedWorkspace(s: State, w: string, digest: string, note: string, now: int)
    requires Activate(s, w, digest, note, now).Ok? && Numbered(s, w) && s.workspaces[w].workspaceId == w
    ensures var s' := Activate(s, w, digest, note, now).value;
            Numbered(s', w) && ActiveIsLast(s', w) && s'.workspaces[w].workspaceId == w
  {
  }

  lemma ActivatedElsewhere(s: State, w: string, digest: string, note: string, now: int, v: string)
    requires Activate(s, w, digest, note, now).Ok? && v != w
    ensures var s' := Activate(s, w, digest, note, now).value;
            && (v in s'.workspaces <==> v in s.workspaces) && (v in s'.generations <==> v in s.generations)
            && (v in s.workspaces ==>
                      s'.workspaces[v] == s.workspaces[v] && (ActiveIsLast(s, v) ==> ActiveIsLast(s', v)))
            && (Numbered(s, v) ==> Numbered(s', v))
  {
    assert Generations(Activate(s, w, digest, note, now).value, v) == Generations(s, v);
  }

  lemma ActivateKeepsFiling(s: State, w: string, digest: string, note: string, now: int)
    requires Inv(s) && Activate(s, w, digest, note, now).Ok?
    ensures var s' := Activate(s, w, digest, note, now).value;
            && s'.workspaces.Keys == s.workspaces.Keys && s'.generations.Keys == s.generations.Keys + {w}
            && s'.byPrincipal == s.byPrincipal && s'.revisions == s.revisions
            && forall v :: v in s.workspaces ==> s'.workspaces[v].principalKey == s.workspaces[v].principalKey
  {
    hide Numbered, ActiveIsLast, NewGeneration, Generations;
  }

  lemma ActivateKeepsNumbers(s: State, w: string, digest: string, note: string, now: int, v: string)
    requires Inv(s) && Activate(s, w, digest, note, now).Ok? && (v in s.generations || v == w)
    ensures Numbered(Activate(s, w, digest, note, now).value, v)
  {
    assert v in s.generations ==> Numbered(s, v);
    if v == w {
      ActivatedWorkspace(s, w, digest, note, now);
    } else {
      ActivatedElsewhere(s, w, digest, note, now, v);
    }
  }

  lemma ActivateKeepsPointers(s: State, w: string, digest: string, note: string, now: int, v: string)
    requires Inv(s) && Activate(s, w, digest, note, now).Ok? && v in s.workspaces
    ensures var s' := Activate(s, w, digest, note, now).value;
            v in s'.workspaces && s'.workspaces[v].workspaceId == v && ActiveIsLast(s', v)
  {
    assert v in s.generations ==> Numbered(s, v);
    if v == w {
      ActivatedWorkspace(s, w, digest, note, now);
    } else {
      ActivatedElsewhere(s, w, digest, note, now, v);
    }
  }

  lemma ActivateKeepsInv(s: State, w: string, digest: string, note: string, now: int)
    requires Inv(s) && Activate(s, w, digest, note, now).Ok?
    ensures Inv(Activate(s, w, digest, note, now).value)
  {
    var s' := Activate(s, w, digest, note, now).value;
    assert w in s.workspaces;
    ActivateKeepsFiling(s, w, digest, note, now);
    hide Numbered, ActiveIsLast, NewGeneration, Generations, Activate;
    forall v | v in s'.generations ensures Numbered(s', v) {
      ActivateKeepsNumbers(s, w, digest, note, now, v);
    }
    forall v | v in s'.workspaces ensures s'.workspaces[v].workspaceId == v && ActiveIsLast(s', v) {
      ActivateKeepsPointers(s, w, digest, note, now, v);
    }
  }

  /** The newest generation is the one that the workspace's pointer shows. */
  lemma ActiveIsNewest(s: State, w: string)
    requires Inv(s) && w in s.workspaces
    ensures var gen := ResolveActive(s, w);
            && (gen.Ok? <==> s.workspaces[w].activeGeneration.Some?)
            && (gen.Ok? ==>
                  && s.workspaces[w].activeGeneration == Some(gen.value.number)
                  && gen.value.number == |Generations(s, w)| && gen.value.workspaceId == w
                  && RevisionKey(w, gen.value.contentDigest) in s.revisions)
  {
    assert ActiveIsLast(s, w);
    assert w in s.generations ==> Numbered(s, w);
  }

  /** The linear search for a generation number finds the entry at that position. */
  lemma {:induction false} FindByPosition(gens: seq<Generation>, first: int, number: int)
    requires forall i :: 0 <= i < |gens| ==> gens[i].number == first + i
    ensures FindGeneration(gens, number)
            == if first <= number < first + |gens| then Ok(gens[number - first]) else Err(NotFound)
  {
    if gens != [] {
      FindByPosition(gens[1..], first + 1, number);
    }
  }

  lemma GetGenerationIsPositional(s: State, w: string, number: int)
    requires Inv(s)
    ensures GetGeneration(s, w, number)
            == if 1 <= number <= |Generations(s, w)| then Ok(Generations(s, w)[number - 1]) else Err(NotFound)
  {
    assert w in s.generations ==> Numbered(s, w);
    FindByPosition(Generations(s, w), 1, number);
  }

  /** Under the invariant an activation of a registered revision cannot fail. */
  lemma ActivationSucceeds(s: State, w: string, digest: string, note: string, now: int)
    requires Inv(s)
    ensures Activate(s, w, digest, note, now).Ok? <==> RevisionKey(w, digest) in s.revisions
  {
  }

  // ---------------------------------------------------------------------------
  // The in-memory implementation
  // ---------------------------------------------------------------------------

  /** A workspace record; activation moves its pointer in place. */
  class WorkspaceRecord {
    const workspaceId: string
    const principalKey: string
    const placement: Placement
    const createdAt: int
    const displayEmail: Option<string>
    var activeGeneration: Option<int>

    constructor (workspaceId: string, principalKey: string, placement: Placement, createdAt: int,
                 displayEmail: Option<string>)
      ensures View() == Workspace(workspaceId, principalKey, placement, createdAt, displayEmail, None)
    {
      this.workspaceId := workspaceId;
      this.principalKey := principalKey;
      this.placement := placement;
      this.createdAt := createdAt;
      this.displayEmail := displayEmail;
      this.activeGeneration := None;
    }

    function View(): Workspace
      reads this
    {
      Workspace(workspaceId, principalKey, placement, createdAt, displayEmail, activeGeneration)
    }
  }

  ghost function Views(records: map<string, WorkspaceRecord>): map<string, Workspace>
    reads records.Values
  {
    map w | w in records :: records[w].View()
  }

  lemma ViewsWith(records: map<string, WorkspaceRecord>, w: string, ws: WorkspaceRecord)
    ensures Views(records[w := ws]) == Views(records)[w := ws.View()]
  {
  }

  class InMemoryRegistry {
    const derive: Derivation
    var workspaces: map<string, WorkspaceRecord>
    var byPrincipal: map<string, string>
    var revisions: map<RevisionKey, Revision>
    var generations: map<string, seq<Generation>>

    constructor (derive: Derivation)
      ensures Valid() && View() == EMPTY && fresh(Repr()) && this.derive == derive
    {
      this.derive := derive;
      workspaces, byPrincipal, revisions, generations := map[], map[], map[], map[];
    }

    ghost function Repr(): set<object>
      reads this
    {
      {this} + workspaces.Values
    }

    /** Every record is filed under its own id, so no two entries share a record. */
    ghost predicate Valid()
      reads this, workspaces.Values
    {
      && (forall w :: w in workspaces ==> workspaces[w].workspaceId == w)
      && (forall k :: k in byPrincipal ==> byPrincipal[k] in workspaces)
      && (forall key :: key in revisions ==> key.workspaceId in workspaces)
    }

    ghost function View(): State
      reads this, workspaces.Values
    {
      State(Views(workspaces), byPrincipal, revisions, generations)
    }

    method EnsureWorkspace(p: Principal, placement: Placement, now: int) returns (ws: WorkspaceRecord)
      requires Valid()
      modifies this
      ensures Valid() && fresh(Repr() - old(Repr()))
      ensures View() == Ensure(old(View()), derive, p, placement, now)
      ensures ws in workspaces.Values && ws.workspaceId == HomeOf(old(View()), derive, p.key)
    {
      if p.key in byPrincipal {
        ws := workspaces[byPrincipal[p.key]];
      } else {
        ws := CreateWorkspace(p, placement, now);
      }
    }

    method CreateWorkspace(p: Principal, placement: Placement, now: int) returns (ws: WorkspaceRecord)
      requires Valid() && p.key !in byPrincipal
      modifies this
      ensures Valid() && fresh(ws) && workspaces == old(workspaces)[derive(p.key) := ws]
      ensures View() == Ensure(old(View()), derive, p, placement, now)
      ensures ws.workspaceId == derive(p.key)
    {
      ws := new WorkspaceRecord(derive(p.key), p.key, placement, now, p.email);
      Install(p.key, ws);
    }

    /** File a record that no workspace uses yet under its id and its principal. */
    method Install(key: string, ws: WorkspaceRecord)
      requires Valid() && ws !in workspaces.Values
      modifies this
      ensures Valid() && workspaces == old(workspaces)[ws.workspaceId := ws]
      ensures var before, w := old(View()), ws.workspaceId;
              View() == State(
                before.workspaces[w := ws.View()],
                before.byPrincipal[key := w],
                before.revisions,
                before.generations[w := Generations(before, w)])
    {
      var w := ws.workspaceId;
      ViewsWith(workspaces, w, ws);
      hide Views;
      workspaces := workspaces[w := ws];
      byPrincipal := byPrincipal[key := w];
      if w !in generations {
        generations := generations[w := []];
      }
    }

    method WorkspaceOwner(w: string) returns (owner: Option<string>)
      requires Valid()
      ensures owner == Owner(View(), w)
    {
      owner := if w in workspaces then Some(workspaces[w].principalKey) else None;
    }

    method AddRevision(r: Revision) returns (result: Result<Revision>)
      requires Valid()
      modifies this
      ensures Valid() && workspaces == old(workspaces)
      ensures RecordRevision(old(View()), r).Err? ==> result == Err(NotFound) && View() == old(View())
      ensures RecordRevision(old(View()), r).Ok? ==>
                && View() == RecordRevision(old(View()), r).value
                && result == GetRevision(View(), r.workspaceId, r.contentDigest)
    {
      if r.workspaceId !in workspaces {
        return Err(NotFound);
      }
      var key := RevisionKey(r.workspaceId, r.contentDigest);
      if key !in revisions {
        revisions := revisions[key := r];
      }
      return Ok(revisions[key]);
    }

    method FindRevision(w: string, digest: string) returns (result: Result<Revision>)
      requires Valid()
      ensures result == GetRevision(View(), w, digest)
    {
      result := if RevisionKey(w, digest) in revisions then Ok(revisions[RevisionKey(w, digest)]) else Err(NotFound);
    }

    method ActivateRevision(w: string, digest: string, note: string, now: int) returns (result: Result<Generation>)
      requires Valid()
      modifies this, workspaces.Values
      ensures Valid() && workspaces == old(workspaces)
      ensures Activate(old(View()), w, digest, note, now).Err? ==> result == Err(NotFound) && View() == old(View())
      ensures Activate(old(View()), w, digest, note, now).Ok? ==>
                && View() == Activate(old(View()), w, digest, note, now).value
                && result == Ok(NewGeneration(old(View()), w, digest, note, now))
    {
      if RevisionKey(w, digest) !in revisions {
        return Err(NotFound);
      }
      hide Views;
      var gens := if w in generations then generations[w] else [];
      var number := if gens != [] then gens[|gens| - 1].number + 1 else 1;
      var gen := Generation(w, number, digest, now, note);
      generations := generations[w := gens + [gen]];
      MovePointer(w, number);
      return Ok(gen);
    }

    method MovePointer(w: string, number: int)
      requires Valid() && w in workspaces
      modifies workspaces[w]
      ensures Valid()
      ensures Views(workspaces)
              == old(Views(workspaces))[w := old(workspaces[w].View()).(activeGeneration := Some(number))]
    {
      workspaces[w].activeGeneration := Some(number);
    }

    /** The newest generation; in a registry that keeps its promises it carries the number that the
        workspace's pointer shows, the length of the list, and names a registered revision. */
    method ResolveActiveGeneration(w: string) returns (result: Result<Generation>)
      requires Valid()
      ensures result == ResolveActive(View(), w)
      ensures Inv(View()) && w in workspaces ==>
                && (result.Ok? <==> workspaces[w].activeGeneration.Some?)
                && (result.Ok? ==>
                      && workspaces[w].activeGeneration == Some(result.value.number)
                      && result.value.number == |Generations(View(), w)|
                      && result.value.workspaceId == w
                      && RevisionKey(w, result.value.contentDigest) in revisions)
    {
      if Inv(View()) && w in workspaces {
        ActiveIsNewest(View(), w);
        assert View().workspaces[w].activeGeneration == workspaces[w].activeGeneration;
      }
      var gens := if w in generations then generations[w] else [];
      if gens == [] {
        return Err(NotFound);
      }
      return Ok(gens[|gens| - 1]);
    }

    method LookupGeneration(w: string, number: int) returns (result: Result<Generation>)
      requires Valid()
      ensures result == GetGeneration(View(), w, number)
    {
      var gens := if w in generations then generations[w] else [];
      for i := 0 to |gens|
        invariant FindGeneration(gens, number) == FindGeneration(gens[i..], number)
      {
        if gens[i].number == number {
          return Ok(gens[i]);
        }
      }
      return Err(NotFound);
    }
  }
}
