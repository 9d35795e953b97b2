/** The app's data (example_decisions/models.py): its constants, the Decision
    record owned by a player, and the table of Decision rows that the
    round-start hook fills with stubs.  The database is an in-memory table; a
    save() writes nothing beyond what the model already holds. */
module Models {
  import opened Common

  const NumRounds: nat := 3
  const NumDecisionsPerRound: nat := 5

  /** The declared choices of Decision.reason: (stored code, label). */
  const Reasons: seq<(string, string)> := [
    ("dont_know", "Don't know"),
    ("example_reason", "Example reason"),
    ("another_example_reason", "Another example reason")
  ]

  /** The stored codes of Reasons, in declaration order. */
  function ReasonCodes(): seq<string> {
    [Reasons[0].0, Reasons[1].0, Reasons[2].0]
  }

  type PlayerId = nat
  type DecisionId = nat

  /** A Decision row: the prompt value, the player's answer (None is blank),
      the reason code (None is blank) and the owning player. */
  datatype Decision = Decision(value: int, playerDecision: Option<bool>, reason: Option<string>, player: PlayerId)

  /** A row as the stub generator leaves it: owned by `p`, a value in [1, 10],
      nothing answered yet. */
  predicate IsStub(d: Decision, p: PlayerId) {
    d.player == p && 1 <= d.value <= 10 && d.playerDecision == None && d.reason == None
  }

  /** `p.decision_set.order_by('id')` over the rows whose keys are below `n`:
      the ids owned by `p`, ascending. */
  function DecisionSetOf(rows: map<DecisionId, Decision>, n: nat, p: PlayerId): seq<DecisionId>
    decreases n
  {
    if n == 0 then []
    else DecisionSetOf(rows, n - 1, p) + (if n - 1 in rows && rows[n - 1].player == p then [n - 1] else [])
  }

  /** The decision set below `n` lists exactly the existing ids below `n`
      owned by `p`, each once, in ascending order. */
  lemma {:induction false} DecisionSetOfSpec(rows: map<DecisionId, Decision>, n: nat, p: PlayerId)
    ensures forall k :: 0 <= k < |DecisionSetOf(rows, n, p)| ==>
              var id := DecisionSetOf(rows, n, p)[k]; id < n && id in rows && rows[id].player == p
    ensures forall id :: id < n && id in rows && rows[id].player == p ==> id in DecisionSetOf(rows, n, p)
    ensures forall i, j :: 0 <= i < j < |DecisionSetOf(rows, n, p)| ==>
              DecisionSetOf(rows, n, p)[i] < DecisionSetOf(rows, n, p)[j]
    decreases n
  {
    if n > 0 {
      DecisionSetOfSpec(rows, n - 1, p);
      var prev: seq<DecisionId> := DecisionSetOf(rows, n - 1, p);
      var ids: seq<DecisionId> := DecisionSetOf(rows, n, p);
      var last: seq<DecisionId> := if n - 1 in rows && rows[n - 1].player == p then [n - 1] else [];
      assert ids == prev + last;
      forall k | 0 <= k < |ids|
        ensures ids[k] < n && ids[k] in rows && rows[ids[k]].player == p
      {
        if k < |prev| {
          assert ids[k] == prev[k];
          assert prev[k] < n - 1 && prev[k] in rows && rows[prev[k]].player == p;
        } else {
          assert ids[k] == last[0];
        }
      }
    }
  }

  /** The decision set below `n` depends only on which ids below `n` exist and who owns them. */
  lemma {:induction false} DecisionSetOfFrame(rows: map<DecisionId, Decision>, rows': map<DecisionId, Decision>, n: nat, p: PlayerId)
    requires forall id :: id < n ==> (id in rows <==> id in rows')
    requires forall id :: id < n && id in rows ==> rows[id].player == rows'[id].player
    ensures DecisionSetOf(rows', n, p) == DecisionSetOf(rows, n, p)
    decreases n
  {
    if n > 0 {
      DecisionSetOfFrame(rows, rows', n - 1, p);
    }
  }

  /** Adding a row under the next free key `n` appends it to its owner's
      decision set and leaves every other player's set as it was. */
  lemma DecisionSetOfAppend(rows: map<DecisionId, Decision>, n: nat, d: Decision, q: PlayerId)
    requires forall id :: id in rows ==> id < n
    ensures DecisionSetOf(rows[n := d], n + 1, q) ==
              DecisionSetOf(rows, n, q) + (if d.player == q then [n] else [])
  {
    DecisionSetOfFrame(rows, rows[n := d], n, q);
  }

  /** The table of Decision rows, keyed by primary key; `nextId` is the key the
      database hands out next. */
  class DecisionTable {
    var rows: map<DecisionId, Decision>
    var nextId: DecisionId

    ghost predicate Valid()
      reads this
    {
      forall id :: id in rows ==> id < nextId
    }

    constructor ()
      ensures Valid() && rows == map[] && nextId == 0
    {
      rows := map[];
      nextId := 0;
    }

    /** `p.decision_set.create()` followed by setting `value` and save():
        a new row under the next key, owned by `p`, not yet answered. */
    method Create(p: PlayerId, value: int) returns (id: DecisionId)
      requires Valid()
      modifies this
      ensures Valid()
      ensures id == old(nextId) && nextId == id + 1 && id !in old(rows)
      ensures rows == old(rows)[id := Decision(value, None, None, p)]
      ensures forall q :: DecisionSetOf(rows, nextId, q) ==
                DecisionSetOf(old(rows), old(nextId), q) + (if q == p then [id] else [])
    {
      id := nextId;
      forall q ensures DecisionSetOf(rows[id := Decision(value, None, None, p)], id + 1, q) ==
          DecisionSetOf(rows, id, q) + (if q == p then [id] else [])
      {
        DecisionSetOfAppend(rows, id, Decision(value, None, None, p), q);
      }
      rows := rows[id := Decision(value, None, None, p)];
      nextId := nextId + 1;
    }
  }

  /** The ids in [lo, hi), ascending. */
  function Range(lo: nat, hi: nat): (r: seq<nat>)
    requires lo <= hi
    ensures |r| == hi - lo && forall k :: 0 <= k < |r| ==> r[k] == lo + k
  {
    if lo == hi then [] else Range(lo, hi - 1) + [hi - 1]
  }

  /** Player.generate_decision_stubs: NumDecisionsPerRound new rows for `p`,
      each with a value drawn from [1, 10].  Existing rows are kept, so a
      second call adds a second batch. */
  method GenerateDecisionStubs(table: DecisionTable, p: PlayerId)
    requires table.Valid()
    modifies table
    ensures table.Valid()
    ensures table.nextId == old(table.nextId) + NumDecisionsPerRound
    ensures forall id :: id in old(table.rows) ==> id in table.rows && table.rows[id] == old(table.rows[id])
    ensures forall id :: id in table.rows ==> id in old(table.rows) || old(table.nextId) <= id
    ensures forall id :: old(table.nextId) <= id < table.nextId ==> id in table.rows && IsStub(table.rows[id], p)
    ensures DecisionSetOf(table.rows, table.nextId, p) ==
              DecisionSetOf(old(table.rows), old(table.nextId), p) + Range(old(table.nextId), table.nextId)
    ensures forall q :: q != p ==>
              DecisionSetOf(table.rows, table.nextId, q) == DecisionSetOf(old(table.rows), old(table.nextId), q)
  {
    ghost var start := table.nextId;
    ghost var before := table.rows;
    var i := 0;
    while i < NumDecisionsPerRound
      invariant 0 <= i <= NumDecisionsPerRound
      invariant table.Valid() && table.nextId == start + i
      invariant forall id :: id in before ==> id in table.rows && table.rows[id] == before[id]
      invariant forall id :: id in table.rows ==> id in before || start <= id
      invariant forall id :: start <= id < table.nextId ==> id in table.rows && IsStub(table.rows[id], p)
      invariant DecisionSetOf(table.rows, table.nextId, p) ==
                  DecisionSetOf(before, start, p) + Range(start, table.nextId)
      invariant forall q :: q != p ==>
                  DecisionSetOf(table.rows, table.nextId, q) == DecisionSetOf(before, start, q)
    {
      var value :| 1 <= value <= 10;  // random.randint(1, 10)
      ghost var rowsBefore := table.rows;
      var id := table.Create(p, value);
      assert Range(start, table.nextId) == Range(start, id) + [id];
      assert DecisionSetOf(table.rows, table.nextId, p) == DecisionSetOf(rowsBefore, id, p) + [id];
      i := i + 1;
    }
  }

  /** When rows below `start` are kept as they were and every other row sits at
      `start` or above, the ids a player's decision set gains past its old
      prefix are all at `start` or above. */
  lemma GainedAreNew(before: map<DecisionId, Decision>, start: nat, rows: map<DecisionId, Decision>, n: nat, q: PlayerId)
    requires start <= n
    requires forall id :: id in before ==> id < start && id in rows && rows[id] == before[id]
    requires forall id :: id in rows ==> id in before || start <= id
    requires DecisionSetOf(before, start, q) <= DecisionSetOf(rows, n, q)
    ensures forall k :: |DecisionSetOf(before, start, q)| <= k < |DecisionSetOf(rows, n, q)| ==>
              start <= DecisionSetOf(rows, n, q)[k]
  {
    var oldSet := DecisionSetOf(before, start, q);
    var newSet := DecisionSetOf(rows, n, q);
    DecisionSetOfSpec(before, start, q);
    DecisionSetOfSpec(rows, n, q);
    forall k | |oldSet| <= k < |newSet|
      ensures start <= newSet[k]
    {
      var id := newSet[k];
      if id < start {
        assert id in before && before[id].player == q;
        var m :| 0 <= m < |oldSet| && oldSet[m] == id;
        assert false;
      }
    }
  }

  /** Subsession.before_session_starts: stubs for every player of the
      subsession, one batch per listed player. */
  method BeforeSessionStarts(table: DecisionTable, players: seq<PlayerId>)
    requires table.Valid()
    modifies table
    ensures table.Valid()
    ensures table.nextId == old(table.nextId) + NumDecisionsPerRound * |players|
    ensures forall id :: id in old(table.rows) ==> id in table.rows && table.rows[id] == old(table.rows[id])
    ensures forall id :: id in table.rows ==> id in old(table.rows) || old(table.nextId) <= id
    ensures forall id :: old(table.nextId) <= id < table.nextId ==>
              id in table.rows && IsStub(table.rows[id], table.rows[id].player) && table.rows[id].player in players
    ensures forall q, k :: |DecisionSetOf(old(table.rows), old(table.nextId), q)| <= k < |DecisionSetOf(table.rows, table.nextId, q)| ==>
              var id := DecisionSetOf(table.rows, table.nextId, q)[k];
              old(table.nextId) <= id && id in table.rows && IsStub(table.rows[id], q)
    ensures forall q :: |DecisionSetOf(table.rows, table.nextId, q)| ==
              |DecisionSetOf(old(table.rows), old(table.nextId), q)| + NumDecisionsPerRound * multiset(players)[q]
    ensures forall q :: DecisionSetOf(old(table.rows), old(table.nextId), q) <= DecisionSetOf(table.rows, table.nextId, q)
  {
    ghost var start := table.nextId;
    ghost var before := table.rows;
    var i := 0;
    while i < |players|
      invariant 0 <= i <= |players|
      invariant table.Valid() && table.nextId == start + NumDecisionsPerRound * i
      invariant forall id :: id in before ==> id in table.rows && table.rows[id] == before[id]
      invariant forall id :: id in table.rows ==> id in before || start <= id
      invariant forall id :: start <= id < table.nextId ==>
                  id in table.rows && IsStub(table.rows[id], table.rows[id].player) && table.rows[id].player in players[..i]
      invariant forall q :: |DecisionSetOf(table.rows, table.nextId, q)| ==
                  |DecisionSetOf(before, start, q)| + NumDecisionsPerRound * multiset(players[..i])[q]
      invariant forall q :: DecisionSetOf(before, start, q) <= DecisionSetOf(table.rows, table.nextId, q)
    {
      assert players[..i + 1] == players[..i] + [players[i]];
      GenerateDecisionStubs(table, players[i]);
      i := i + 1;
    }
    assert players[..i] == players;
    forall q
      ensures forall k :: |DecisionSetOf(before, start, q)| <= k < |DecisionSetOf(table.rows, table.nextId, q)| ==>
                var id := DecisionSetOf(table.rows, table.nextId, q)[k];
                start <= id && id in table.rows && IsStub(table.rows[id], q)
    {
      GainedAreNew(before, start, table.rows, table.nextId, q);
      DecisionSetOfSpec(table.rows, table.nextId, q);
    }
  }
}
