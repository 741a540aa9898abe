/** Retention of ended port-forward sessions: bounded in time and in number, the oldest going first. */
module PortForwardRetention {
  import opened Wrappers
  import opened PortForward

  /** Thirty seconds, in milliseconds. */
  const TERMINAL_RETENTION: nat := 30_000

  datatype Ended = Ended(state: SessionState, terminalAt: Option<nat>)

  predicate Expired(x: Ended, now: nat) {
    x.state.IsTerminal() && x.terminalAt.Some? && now - x.terminalAt.value > TERMINAL_RETENTION
  }

  /** No end time sorts before every end time. */
  predicate NoLater(a: Option<nat>, b: Option<nat>) {
    a.None? || (b.Some? && a.value <= b.value)
  }

  type Entry = (Option<nat>, SessionId)

  ghost predicate ByAge(entries: seq<Entry>) {
    forall i, j :: 0 <= i < j < |entries| ==> NoLater(entries[i].0, entries[j].0)
  }

  function InsertByAge(e: Entry, entries: seq<Entry>): seq<Entry> {
    if |entries| == 0 then [e]
    else if NoLater(e.0, entries[0].0) then [e] + entries
    else [entries[0]] + InsertByAge(e, entries[1..])
  }

  function SortByAge(entries: seq<Entry>): seq<Entry> {
    if |entries| == 0 then [] else InsertByAge(entries[0], SortByAge(entries[1..]))
  }

  lemma {:induction false} InsertKeeps(e: Entry, entries: seq<Entry>)
    ensures multiset(InsertByAge(e, entries)) == multiset(entries) + multiset{e}
    ensures forall x :: x in InsertByAge(e, entries) ==> x == e || x in entries
  {
    if |entries| == 0 || NoLater(e.0, entries[0].0) {
    } else {
      InsertKeeps(e, entries[1..]);
      assert entries == [entries[0]] + entries[1..];
    }
  }

  lemma {:induction false} InsertSorts(e: Entry, entries: seq<Entry>)
    requires ByAge(entries)
    ensures ByAge(InsertByAge(e, entries))
  {
    if |entries| == 0 || NoLater(e.0, entries[0].0) {
    } else {
      var rest := InsertByAge(e, entries[1..]);
      InsertSorts(e, entries[1..]);
      InsertKeeps(e, entries[1..]);
      forall j | 0 <= j < |rest| ensures NoLater(entries[0].0, rest[j].0) {
        assert rest[j] == e || rest[j] in entries[1..];
      }
    }
  }

  lemma {:induction false} SortKeeps(entries: seq<Entry>)
    ensures multiset(SortByAge(entries)) == multiset(entries)
  {
    if |entries| == 0 {
    } else {
      SortKeeps(entries[1..]);
      InsertKeeps(entries[0], SortByAge(entries[1..]));
      assert entries == [entries[0]] + entries[1..];
    }
  }

  lemma {:induction false} SortSorts(entries: seq<Entry>)
    ensures ByAge(SortByAge(entries))
  {
    hide InsertByAge;
    if |entries| == 0 {
    } else {
      SortSorts(entries[1..]);
      InsertSorts(entries[0], SortByAge(entries[1..]));
    }
  }

  lemma SortLength(entries: seq<Entry>)
    ensures |SortByAge(entries)| == |entries|
  {
    SortKeeps(entries);
    assert |multiset(SortByAge(entries))| == |multiset(entries)|;
  }

  function Ids(entries: seq<Entry>): set<SessionId> {
    set e | e in entries :: e.1
  }

  /** The ended sessions in some order, each once. */
  ghost predicate ListsEnded(entries: seq<Entry>, sessions: map<SessionId, Ended>) {
    && (forall id :: id in Ids(entries) <==> id in sessions && sessions[id].state.IsTerminal())
    && (forall e :: e in entries ==> e.1 in sessions && e.0 == sessions[e.1].terminalAt)
    && |Ids(entries)| == |entries|
  }

  ghost function EndedIds(sessions: map<SessionId, Ended>): set<SessionId> {
    set id | id in sessions && sessions[id].state.IsTerminal()
  }

  lemma IdsAppend(entries: seq<Entry>, e: Entry)
    ensures Ids(entries + [e]) == Ids(entries) + {e.1}
  {
    assert forall x :: x in entries + [e] <==> x in entries || x == e;
  }

  /** Scanning a map collects each entry that qualifies once. */
  method CollectEnded(sessions: map<SessionId, Ended>) returns (terminal: seq<Entry>)
    ensures ListsEnded(terminal, sessions)
  {
    terminal := [];
    var todo := sessions.Keys;
    while todo != {}
      invariant todo <= sessions.Keys
      invariant forall id :: id in Ids(terminal) <==> id in sessions && id !in todo && sessions[id].state.IsTerminal()
      invariant forall e :: e in terminal ==> e.1 in sessions && e.0 == sessions[e.1].terminalAt
      invariant |Ids(terminal)| == |terminal|
      decreases |todo|
    {
      var id :| id in todo;
      todo := todo - {id};
      if sessions[id].state.IsTerminal() {
        var e := (sessions[id].terminalAt, id);
        IdsAppend(terminal, e);
        terminal := terminal + [e];
      }
    }
  }

  lemma IdsSplit(entries: seq<Entry>, k: nat)
    requires k <= |entries| && |Ids(entries)| == |entries|
    ensures Ids(entries[..k]) + Ids(entries[k..]) == Ids(entries)
    ensures |Ids(entries[..k])| == k && |Ids(entries[k..])| == |entries| - k && Ids(entries[..k]) !! Ids(entries[k..])
  {
    assert entries == entries[..k] + entries[k..];
    assert forall e :: e in entries <==> e in entries[..k] || e in entries[k..];
    IdsAtMost(entries[..k]);
    IdsAtMost(entries[k..]);
    var a, b := Ids(entries[..k]), Ids(entries[k..]);
    assert a + b == Ids(entries);
    assert |a + b| == |a| + |b| - |a * b|;
    var both := a * b;
    assert |both| == 0;
    assert both == {};
    assert forall id :: id in a && id in b ==> id in both;
  }

  lemma {:induction false} IdsAtMost(entries: seq<Entry>)
    ensures |Ids(entries)| <= |entries|
  {
    if |entries| > 0 {
      var n := |entries| - 1;
      IdsAtMost(entries[..n]);
      assert entries == entries[..n] + [entries[n]];
      assert Ids(entries) == Ids(entries[..n]) + {entries[n].1};
    } else {
      assert Ids(entries) == {};
    }
  }

  lemma SortedLists(terminal: seq<Entry>, sessions: map<SessionId, Ended>)
    requires ListsEnded(terminal, sessions)
    ensures ListsEnded(SortByAge(terminal), sessions) && ByAge(SortByAge(terminal))
    ensures |SortByAge(terminal)| == |terminal| == |EndedIds(sessions)|
  {
    var sorted := SortByAge(terminal);
    SortSorts(terminal);
    SortKeeps(terminal);
    SortLength(terminal);
    forall e ensures e in sorted <==> e in terminal {
      assert e in sorted <==> e in multiset(sorted);
      assert e in terminal <==> e in multiset(terminal);
    }
    assert Ids(sorted) == Ids(terminal) == EndedIds(sessions);
  }

  /** What is kept: everything live, nothing expired, and of the ended ones the newest up to the bound. */
  ghost predicate Retains(sessions: map<SessionId, Ended>, now: nat, kept: map<SessionId, Ended>) {
    && (forall id :: id in kept ==> id in sessions && kept[id] == sessions[id] && !Expired(sessions[id], now))
    && (forall id :: id in sessions && !sessions[id].state.IsTerminal() ==> id in kept)
    && |EndedIds(kept)| <= MAX_SESSIONS
    && (forall gone, stays :: gone in sessions && gone !in kept && !Expired(sessions[gone], now) && stays in EndedIds(kept) ==>
          NoLater(sessions[gone].terminalAt, sessions[stays].terminalAt))
    && (forall gone :: gone in sessions && gone !in kept && !Expired(sessions[gone], now) ==>
          |EndedIds(kept)| == MAX_SESSIONS)
  }

  /** Between the two scans sessions may end, and what has ended stays as it is. */
  ghost predicate Ages(first: map<SessionId, Ended>, second: map<SessionId, Ended>, now: nat) {
    && first.Keys == second.Keys
    && (forall id :: id in first && first[id].state.IsTerminal() ==> second[id] == first[id])
    && (forall id :: id in first && !first[id].state.IsTerminal() ==> !Expired(second[id], now))
  }

  /** Each session is read twice: for its expiry, and then among the ended ones for the bound. */
  method PruneExpired(first: map<SessionId, Ended>, second: map<SessionId, Ended>, now: nat)
    returns (kept: map<SessionId, Ended>)
    requires Ages(first, second, now)
    ensures Retains(second, now, kept)
  {
    kept := map id | id in first && !Expired(first[id], now) :: second[id];
    assert kept == map id | id in second && !Expired(second[id], now) :: second[id];
    var terminal := CollectEnded(kept);
    SortedLists(terminal, kept);
    var oldestFirst := SortByAge(terminal);
    var excess := if |oldestFirst| > MAX_SESSIONS then |oldestFirst| - MAX_SESSIONS else 0;
    ghost var unexpired := kept;
    for i := 0 to excess
      invariant kept == unexpired - Ids(oldestFirst[..i])
    {
      IdsNext(oldestFirst, i);
      kept := kept - {oldestFirst[i].1};
    }
    RetainsNewest(second, now, unexpired, oldestFirst, excess);
  }

  lemma IdsNext(entries: seq<Entry>, i: nat)
    requires i < |entries|
    ensures Ids(entries[..i + 1]) == Ids(entries[..i]) + {entries[i].1}
  {
    assert entries[..i + 1] == entries[..i] + [entries[i]];
  }

  lemma RetainsNewest(sessions: map<SessionId, Ended>, now: nat, unexpired: map<SessionId, Ended>,
                      oldestFirst: seq<Entry>, excess: nat)
    requires unexpired == map id | id in sessions && !Expired(sessions[id], now) :: sessions[id]
    requires ListsEnded(oldestFirst, unexpired) && ByAge(oldestFirst)
    requires excess == if |oldestFirst| > MAX_SESSIONS then |oldestFirst| - MAX_SESSIONS else 0
    ensures Retains(sessions, now, unexpired - Ids(oldestFirst[..excess]))
  {
    KeptNewest(unexpired, oldestFirst, excess);
    RetainsUnexpired(sessions, now, unexpired, unexpired - Ids(oldestFirst[..excess]));
  }

  lemma RetainsUnexpired(sessions: map<SessionId, Ended>, now: nat, unexpired: map<SessionId, Ended>,
                         kept: map<SessionId, Ended>)
    requires unexpired == map id | id in sessions && !Expired(sessions[id], now) :: sessions[id]
    requires kept.Keys <= unexpired.Keys && forall id :: id in kept ==> kept[id] == unexpired[id]
    requires |EndedIds(kept)| <= MAX_SESSIONS
    requires forall gone :: gone in unexpired && gone !in kept ==>
               unexpired[gone].state.IsTerminal() && |EndedIds(kept)| == MAX_SESSIONS
    requires forall gone, stays :: gone in unexpired && gone !in kept && stays in EndedIds(kept) ==>
               NoLater(unexpired[gone].terminalAt, unexpired[stays].terminalAt)
    ensures Retains(sessions, now, kept)
  {
  }

  /** Dropping the front of the list by age leaves the newest. */
  lemma KeptNewest(unexpired: map<SessionId, Ended>, oldestFirst: seq<Entry>, excess: nat)
    requires ListsEnded(oldestFirst, unexpired) && ByAge(oldestFirst) && excess <= |oldestFirst|
    ensures var kept := unexpired - Ids(oldestFirst[..excess]);
            && |EndedIds(kept)| == |oldestFirst| - excess
            && (forall gone :: gone in unexpired && gone !in kept ==> excess > 0 && unexpired[gone].state.IsTerminal())
            && (forall gone, stays :: gone in unexpired && gone !in kept && stays in EndedIds(kept) ==>
                  NoLater(unexpired[gone].terminalAt, unexpired[stays].terminalAt))
  {
    var kept := unexpired - Ids(oldestFirst[..excess]);
    IdsSplit(oldestFirst, excess);
    assert EndedIds(kept) == Ids(oldestFirst[excess..]);
    forall gone | gone in unexpired && gone !in kept ensures unexpired[gone].state.IsTerminal() && excess > 0 {
      assert gone in Ids(oldestFirst);
    }
    forall gone, stays | gone in unexpired && gone !in kept && stays in EndedIds(kept)
      ensures NoLater(unexpired[gone].terminalAt, unexpired[stays].terminalAt)
    {
      AgesApart(oldestFirst, excess, gone, stays, unexpired);
    }
  }

  lemma AgesApart(entries: seq<Entry>, k: nat, gone: SessionId, stays: SessionId, sessions: map<SessionId, Ended>)
    requires ListsEnded(entries, sessions) && ByAge(entries) && k <= |entries|
    requires gone in Ids(entries[..k]) && stays in Ids(entries[k..])
    ensures gone in sessions && stays in sessions && NoLater(sessions[gone].terminalAt, sessions[stays].terminalAt)
  {
    var e :| e in entries[..k] && e.1 == gone;
    var f :| f in entries[k..] && f.1 == stays;
    var i :| 0 <= i < k && entries[..k][i] == e;
    var j :| 0 <= j < |entries| - k && entries[k..][j] == f;
    assert entries[i] == e && entries[k + j] == f;
  }

  /** What pruning drops is what the protocol lets a prune step drop. */
  lemma PrunedIsEnabled(s: State, t: Task, ended: map<SessionId, Ended>, now: nat, kept: map<SessionId, Ended>)
    requires Retains(ended, now, kept) && ended.Keys == s.listed && s.listed <= s.sessions.Keys
    requires forall id :: id in ended ==> ended[id].state == s.sessions[id].state
    requires t in s.tasks
    requires s.tasks[t].StartAdmit? || s.tasks[t].ListPrune? || (s.tasks[t].StartScan? && s.tasks[t].todo == {})
    ensures Enabled(s, Prune(t, s.listed - kept.Keys))
    ensures s.listed * kept.Keys == Exec(s, Prune(t, s.listed - kept.Keys)).listed
  {
  }
}
