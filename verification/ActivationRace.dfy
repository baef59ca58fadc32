/** Concurrent activations: optimistic transactions that read the counter and commit only if the
    workspace document is unchanged, and otherwise start over. */
module ActivationRace {
  import opened Text
  import opened Registry
  import opened Firestore

  /** What a transaction has read: the document's version and its counter. */
  datatype Snapshot = Snapshot(version: nat, current: int)

  datatype Attempt = Attempt(w: string, digest: string, note: string, now: int, read: Option<Snapshot>)

  /** Documents, document versions, running transactions, and the history of effects and replies. */
  datatype Race = Race(
    docs: Docs,
    versions: map<string, nat>,
    attempts: map<nat, Attempt>,
    calls: seq<Call>,
    replies: seq<Reply>)

  datatype Action =
    | Request(tid: nat, w: string, digest: string, note: string, now: int)
    | Read(tid: nat)
    | Commit(tid: nat)
    | GiveUp(tid: nat)
    | Record(r: Revision)

  function Start(docs: Docs): Race {
    Race(docs, map[], map[], [], [])
  }

  function Version(race: Race, w: string): nat {
    if w in race.versions then race.versions[w] else 0
  }

  function Counter(docs: Docs, w: string): int {
    if w in docs.workspaces then NumberOf(docs.workspaces[w], "active_generation") else 0
  }

  function CommitAttempt(race: Race, tid: nat): Race
    requires tid in race.attempts && race.attempts[tid].read.Some? && race.attempts[tid].w in race.docs.workspaces
  {
    var a := race.attempts[tid];
    if a.read.value.version != Version(race, a.w) then
      race.(attempts := race.attempts[tid := a.(read := None)])
    else
      var gen := Generation(a.w, a.read.value.current + 1, a.digest, a.now, a.note);
      Race(
        FsBump(race.docs, gen),
        race.versions[a.w := Version(race, a.w) + 1],
        race.attempts - {tid},
        race.calls + [ActivateCall(a.w, a.digest, a.note, a.now)],
        race.replies + [GenerationReply(gen)])
  }

  /** One step of the schedule; a step that is not enabled does nothing. */
  function Next(race: Race, action: Action): Race {
    match action
    case Request(tid, w, digest, note, now) =>
      if tid in race.attempts || RevisionKey(w, digest) !in race.docs.revisions || w !in race.docs.workspaces then race
      else race.(attempts := race.attempts[tid := Attempt(w, digest, note, now, None)])
    case Read(tid) =>
      if tid !in race.attempts then race
      else
        var a := race.attempts[tid];
        race.(attempts := race.attempts[tid := a.(read := Some(Snapshot(Version(race, a.w), Counter(race.docs, a.w))))])
    case Commit(tid) =>
      if tid !in race.attempts || race.attempts[tid].read.None? then race
      else if race.attempts[tid].w !in race.docs.workspaces then race
      else CommitAttempt(race, tid)
    case GiveUp(tid) => race.(attempts := race.attempts - {tid})
    case Record(r) =>
      if r.workspaceId !in race.docs.workspaces then race
      else race.(docs := FsAddRevision(race.docs, r), calls := race.calls + [AddCall(r)],
                 replies := race.replies + [Added(r)])
  }

  function Run(race: Race, schedule: seq<Action>): Race
    decreases schedule
  {
    if schedule == [] then race else Run(Next(race, schedule[0]), schedule[1..])
  }

  // ---------------------------------------------------------------------------
  // Linearizability
  // ---------------------------------------------------------------------------

  /** A snapshot of the current version shows the current counter. */
  ghost predicate SnapshotsSound(race: Race) {
    forall tid :: tid in race.attempts ==>
      var a := race.attempts[tid];
      && RevisionKey(a.w, a.digest) in race.docs.revisions
      && a.w in race.docs.workspaces
      && (a.read.Some? ==>
            && a.read.value.version <= Version(race, a.w)
            && (a.read.value.version == Version(race, a.w) ==> a.read.value.current == Counter(race.docs, a.w)))
  }

  /** The documents after a list of calls. */
  function After(d: Docs, derive: Derivation, calls: seq<Call>): Docs
    decreases calls
  {
    if calls == [] then d else After(FirestoreState(d, derive, calls[0]), derive, calls[1..])
  }

  lemma {:induction false} TraceAppend(d: Docs, derive: Derivation, calls: seq<Call>, c: Call)
    ensures After(d, derive, calls + [c]) == FirestoreState(After(d, derive, calls), derive, c)
    ensures FirestoreTrace(d, derive, calls + [c])
            == FirestoreTrace(d, derive, calls) + [FirestoreReply(After(d, derive, calls), derive, c)]
    decreases calls
  {
    if calls == [] {
      assert calls + [c] == [c] && [c][1..] == [];
    } else {
      assert (calls + [c])[1..] == calls[1..] + [c];
      TraceAppend(FirestoreState(d, derive, calls[0]), derive, calls[1..], c);
    }
  }

  /** So far the effects are those of the recorded calls, made one at a time in this order. */
  ghost predicate Linear(d0: Docs, derive: Derivation, race: Race) {
    && race.docs == After(d0, derive, race.calls)
    && race.replies == FirestoreTrace(d0, derive, race.calls)
  }

  lemma CommitIsActivation(race: Race, derive: Derivation, tid: nat)
    requires SnapshotsSound(race) && tid in race.attempts && race.attempts[tid].read.Some?
    requires race.attempts[tid].read.value.version == Version(race, race.attempts[tid].w)
    ensures var a := race.attempts[tid];
            var c := ActivateCall(a.w, a.digest, a.note, a.now);
            && CommitAttempt(race, tid).docs == FirestoreState(race.docs, derive, c)
            && CommitAttempt(race, tid).replies == race.replies + [FirestoreReply(race.docs, derive, c)]
  {
    var a := race.attempts[tid];
    assert a.read.value.current == Counter(race.docs, a.w);
    assert Generation(a.w, a.read.value.current + 1, a.digest, a.now, a.note)
           == FsNewGeneration(race.docs, a.w, a.digest, a.note, a.now);
  }

  lemma CommitKeepsSnapshots(race: Race, tid: nat)
    requires SnapshotsSound(race) && tid in race.attempts && race.attempts[tid].read.Some?
    ensures SnapshotsSound(CommitAttempt(race, tid))
  {
    var next := CommitAttempt(race, tid);
    forall t | t in next.attempts
      ensures var b := next.attempts[t];
              && RevisionKey(b.w, b.digest) in next.docs.revisions && b.w in next.docs.workspaces
              && (b.read.Some? ==> b.read.value.version <= Version(next, b.w)
                                   && (b.read.value.version == Version(next, b.w) ==>
                                             b.read.value.current == Counter(next.docs, b.w)))
    {
      assert t in race.attempts;
    }
  }

  lemma CommitIsLinear(d0: Docs, derive: Derivation, race: Race, tid: nat)
    requires SnapshotsSound(race) && Linear(d0, derive, race)
    requires tid in race.attempts && race.attempts[tid].read.Some?
    ensures Linear(d0, derive, CommitAttempt(race, tid))
  {
    var a := race.attempts[tid];
    if a.read.value.version == Version(race, a.w) {
      CommitIsActivation(race, derive, tid);
      TraceAppend(d0, derive, race.calls, ActivateCall(a.w, a.digest, a.note, a.now));
    }
  }

  lemma StepIsLinear(d0: Docs, derive: Derivation, race: Race, action: Action)
    requires SnapshotsSound(race) && Linear(d0, derive, race)
    ensures SnapshotsSound(Next(race, action)) && Linear(d0, derive, Next(race, action))
  {
    hide CommitAttempt, FsAddRevision, FirestoreTrace, After;
    match action
    case Request(_, _, _, _, _) => hide Linear; AttemptsStayLinear(d0, derive, race, Next(race, action));
    case Read(_) => hide Linear; AttemptsStayLinear(d0, derive, race, Next(race, action));
    case GiveUp(_) => hide Linear; AttemptsStayLinear(d0, derive, race, Next(race, action));
    case Record(r) => RecordIsLinear(d0, derive, race, r);
    case Commit(tid) =>
      if tid in race.attempts && race.attempts[tid].read.Some? {
        CommitKeepsSnapshots(race, tid);
        CommitIsLinear(d0, derive, race, tid);
      }
  }

  lemma AttemptsStayLinear(d0: Docs, derive: Derivation, race: Race, next: Race)
    requires Linear(d0, derive, race) && next == race.(attempts := next.attempts)
    ensures Linear(d0, derive, next)
  {
    hide After, FirestoreTrace;
  }

  lemma RecordIsLinear(d0: Docs, derive: Derivation, race: Race, r: Revision)
    requires SnapshotsSound(race) && Linear(d0, derive, race)
    ensures SnapshotsSound(Next(race, Record(r))) && Linear(d0, derive, Next(race, Record(r)))
  {
    TraceAppend(d0, derive, race.calls, AddCall(r));
  }

  lemma {:induction false} RunIsLinear(d0: Docs, derive: Derivation, race: Race, schedule: seq<Action>)
    requires SnapshotsSound(race) && Linear(d0, derive, race)
    ensures SnapshotsSound(Run(race, schedule)) && Linear(d0, derive, Run(race, schedule))
    decreases schedule
  {
    if schedule != [] {
      StepIsLinear(d0, derive, race, schedule[0]);
      RunIsLinear(d0, derive, Next(race, schedule[0]), schedule[1..]);
    }
  }

  // ---------------------------------------------------------------------------
  // Against the in-memory registry
  // ---------------------------------------------------------------------------

  function MemoryAfter(s: State, derive: Derivation, calls: seq<Call>): State
    decreases calls
  {
    if calls == [] then s else MemoryAfter(MemoryState(s, derive, calls[0]), derive, calls[1..])
  }

  /** A legal trace keeps the invariant and the simulation. */
  lemma {:induction false} LegalTraceSimulates(s: State, d: Docs, derive: Derivation, calls: seq<Call>)
    requires Inv(s) && Simulates(s, d) && LegalTrace(s, derive, calls)
    ensures Inv(MemoryAfter(s, derive, calls)) && Simulates(MemoryAfter(s, derive, calls), After(d, derive, calls))
    decreases calls
  {
    if calls != [] {
      MemoryInv(s, derive, calls[0]);
      StatesSimulate(s, d, derive, calls[0]);
      LegalTraceSimulates(MemoryState(s, derive, calls[0]), FirestoreState(d, derive, calls[0]), derive, calls[1..]);
    }
  }

  lemma {:induction false} LegalAppend(s: State, derive: Derivation, calls: seq<Call>, c: Call)
    requires LegalTrace(s, derive, calls)
    requires FreshId(MemoryAfter(s, derive, calls), derive, c) && Ensured(MemoryAfter(s, derive, calls), c)
    ensures LegalTrace(s, derive, calls + [c])
    decreases calls
  {
    if calls == [] {
      assert calls + [c] == [c] && [c][1..] == [];
    } else {
      assert (calls + [c])[1..] == calls[1..] + [c];
      LegalAppend(MemoryState(s, derive, calls[0]), derive, calls[1..], c);
    }
  }

  lemma RecordIsLegal(s0: State, d0: Docs, derive: Derivation, race: Race, r: Revision)
    requires Inv(s0) && Simulates(s0, d0) && LegalTrace(s0, derive, race.calls)
    requires race.docs == After(d0, derive, race.calls) && r.workspaceId in race.docs.workspaces
    ensures LegalTrace(s0, derive, race.calls + [AddCall(r)])
  {
    hide Inv, LegalTrace, After, MemoryAfter;
    LegalTraceSimulates(s0, d0, derive, race.calls);
    LegalAppend(s0, derive, race.calls, AddCall(r));
  }

  lemma CommitIsLegal(s0: State, derive: Derivation, race: Race, tid: nat)
    requires LegalTrace(s0, derive, race.calls)
    requires tid in race.attempts && race.attempts[tid].read.Some? && race.attempts[tid].w in race.docs.workspaces
    ensures LegalTrace(s0, derive, CommitAttempt(race, tid).calls)
  {
    hide LegalTrace, MemoryAfter, FsBump;
    var a := race.attempts[tid];
    LegalAppend(s0, derive, race.calls, ActivateCall(a.w, a.digest, a.note, a.now));
  }

  lemma StepIsLegal(s0: State, d0: Docs, derive: Derivation, race: Race, action: Action)
    requires Inv(s0) && Simulates(s0, d0) && SnapshotsSound(race)
    requires Linear(d0, derive, race) && LegalTrace(s0, derive, race.calls)
    ensures LegalTrace(s0, derive, Next(race, action).calls)
  {
    hide Inv, Simulates, LegalTrace, CommitAttempt, After, SnapshotsSound, FsAddRevision;
    match action
    case Record(r) =>
      if r.workspaceId in race.docs.workspaces {
        RecordIsLegal(s0, d0, derive, race, r);
      }
    case Commit(tid) =>
      if tid in race.attempts && race.attempts[tid].read.Some? && race.attempts[tid].w in race.docs.workspaces {
        CommitIsLegal(s0, derive, race, tid);
      }
    case _ =>
  }

  lemma {:induction false} RunIsLegal(s0: State, d0: Docs, derive: Derivation, race: Race, schedule: seq<Action>)
    requires Inv(s0) && Simulates(s0, d0) && SnapshotsSound(race)
    requires Linear(d0, derive, race) && LegalTrace(s0, derive, race.calls)
    ensures LegalTrace(s0, derive, Run(race, schedule).calls)
    decreases schedule
  {
    if schedule != [] {
      StepIsLinear(d0, derive, race, schedule[0]);
      StepIsLegal(s0, d0, derive, race, schedule[0]);
      RunIsLegal(s0, d0, derive, Next(race, schedule[0]), schedule[1..]);
    }
  }

  /** Under every schedule, concurrent transactions leave the documents and give the replies of the
      in-memory registry that makes the committed calls one at a time, in commit order, apart from the
      revisions that are echoed. */
  lemma RacesAreSequential(s0: State, d0: Docs, derive: Derivation, schedule: seq<Action>)
    requires Inv(s0) && Simulates(s0, d0)
    ensures var race := Run(Start(d0), schedule);
            && |MemoryTrace(s0, derive, race.calls)| == |race.calls|
            && race.replies == Echoed(race.calls, MemoryTrace(s0, derive, race.calls))
            && LegalTrace(s0, derive, race.calls)
            && Inv(MemoryAfter(s0, derive, race.calls))
            && Simulates(MemoryAfter(s0, derive, race.calls), race.docs)
  {
    var race := Run(Start(d0), schedule);
    RunIsLinear(d0, derive, Start(d0), schedule);
    RunIsLegal(s0, d0, derive, Start(d0), schedule);
    LegalTraceSimulates(s0, d0, derive, race.calls);
    TracesAgree(s0, d0, derive, race.calls);
  }

  // ---------------------------------------------------------------------------
  // Generation numbers
  // ---------------------------------------------------------------------------

  /** The numbers handed out for a workspace, in the order of the calls. */
  function Numbers(w: string, calls: seq<Call>, replies: seq<Reply>): seq<int>
    requires |calls| == |replies|
  {
    if calls == [] then []
    else
      var rest := Numbers(w, calls[1..], replies[1..]);
      if calls[0].ActivateCall? && calls[0].w == w && replies[0].GenerationReply? then [replies[0].g.number] + rest
      else rest
  }

  /** Echoed revisions hand out no numbers. */
  lemma {:induction false} NumbersOfEchoed(w: string, calls: seq<Call>, replies: seq<Reply>)
    requires |calls| == |replies|
    ensures |Echoed(calls, replies)| == |calls|
    ensures Numbers(w, calls, Echoed(calls, replies)) == Numbers(w, calls, replies)
  {
    if calls != [] {
      NumbersOfEchoed(w, calls[1..], replies[1..]);
      assert Echoed(calls, replies)[1..] == Echoed(calls[1..], replies[1..]);
    }
  }

  lemma {:induction false} TraceLength(s: State, derive: Derivation, calls: seq<Call>)
    ensures |MemoryTrace(s, derive, calls)| == |calls|
    decreases calls
  {
    if calls != [] {
      TraceLength(MemoryState(s, derive, calls[0]), derive, calls[1..]);
    }
  }

  lemma CallCounts(s: State, derive: Derivation, c: Call, w: string)
    requires Inv(s)
    ensures var more := c.ActivateCall? && c.w == w && MemoryReply(s, derive, c).GenerationReply?;
            && |Generations(MemoryState(s, derive, c), w)| == |Generations(s, w)| + (if more then 1 else 0)
            && (more ==> MemoryReply(s, derive, c).g.number == |Generations(s, w)| + 1)
  {
    assert w in s.generations ==> Numbered(s, w);
    if c.EnsureCall? {
      EnsureKeepsGenerations(s, derive, c.p, c.placement, c.now);
    }
  }

  ghost predicate Consecutive(numbers: seq<int>, first: int) {
    forall i :: 0 <= i < |numbers| ==> numbers[i] == first + i
  }

  /** One more call in front of a consecutive history; `before` and `after` count generations. */
  lemma ConsecutiveStep(w: string, c: Call, r: Reply, calls: seq<Call>, replies: seq<Reply>, before: nat, after: nat)
    requires |calls| == |replies| && Consecutive(Numbers(w, calls, replies), after + 1)
    requires var more := c.ActivateCall? && c.w == w && r.GenerationReply?;
             after == before + (if more then 1 else 0) && (more ==> r.g.number == before + 1)
    ensures var numbers := Numbers(w, [c] + calls, [r] + replies);
            Consecutive(numbers, before + 1) && before + |numbers| == after + |Numbers(w, calls, replies)|
  {
    assert ([c] + calls)[1..] == calls && ([r] + replies)[1..] == replies;
  }

  lemma {:induction false} NumbersAreConsecutive(s: State, derive: Derivation, calls: seq<Call>, w: string)
    requires Inv(s) && LegalTrace(s, derive, calls)
    ensures |MemoryTrace(s, derive, calls)| == |calls|
    ensures var numbers := Numbers(w, calls, MemoryTrace(s, derive, calls));
            && |Generations(MemoryAfter(s, derive, calls), w)| == |Generations(s, w)| + |numbers|
            && Consecutive(numbers, |Generations(s, w)| + 1)
    decreases calls
  {
    TraceLength(s, derive, calls);
    if calls != [] {
      var c, rest, s' := calls[0], calls[1..], MemoryState(s, derive, calls[0]);
      CallCounts(s, derive, c, w);
      MemoryInv(s, derive, c);
      NumbersAreConsecutive(s', derive, rest, w);
      ConsecutiveStep(w, c, MemoryReply(s, derive, c), rest, MemoryTrace(s', derive, rest), |Generations(s, w)|,
                      |Generations(s', w)|);
      assert calls == [c] + rest;
    }
  }

  /** Whatever the schedule, a workspace that starts without generations hands out 1, 2, ..., n, with
      no gap and no duplicate, and its counter ends at n. */
  lemma CommittedNumbersAreGapless(s0: State, d0: Docs, derive: Derivation, schedule: seq<Action>, w: string)
    requires Inv(s0) && Simulates(s0, d0) && Generations(s0, w) == [] && w in d0.workspaces
    ensures var race := Run(Start(d0), schedule);
            && |race.calls| == |race.replies|
            && var numbers := Numbers(w, race.calls, race.replies);
            && Consecutive(numbers, 1)
            && Counter(race.docs, w) == |numbers|
  {
    var race := Run(Start(d0), schedule);
    RacesAreSequential(s0, d0, derive, schedule);
    NumbersAreConsecutive(s0, derive, race.calls, w);
    NumbersOfEchoed(w, race.calls, MemoryTrace(s0, derive, race.calls));
    var s := MemoryAfter(s0, derive, race.calls);
    WorkspacesStay(Start(d0), schedule, w);
    CounterSimulates(s, race.docs, w);
  }

  lemma {:induction false} WorkspacesStay(race: Race, schedule: seq<Action>, w: string)
    requires w in race.docs.workspaces
    ensures w in Run(race, schedule).docs.workspaces
    decreases schedule
  {
    if schedule != [] {
      WorkspacesStay(Next(race, schedule[0]), schedule[1..], w);
    }
  }
}
