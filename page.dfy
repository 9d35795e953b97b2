/** The decision page (MakeDecisionsPage in example_decisions/views.py): the
    count check made before rendering, and the handler that writes the
    submitted answers back onto the player's Decision rows. */
module DecisionPage {
  import opened Common
  import opened Models

  /** Why the page fails: the count assertion, a missing form key (KeyError),
      an id that int() rejects (ValueError) or an id that is not one of the
      player's decisions (KeyError). */
  datatype PageError =
    | WrongDecisionCount(count: nat)
    | MissingKey(key: string)
    | NotAnInteger(text: string)
    | UnknownDecision(id: int)

  /** The (value, decision id) pairs of the player's decisions, in order. */
  function ValuesWithIds(rows: map<DecisionId, Decision>, ids: seq<DecisionId>): (r: seq<(int, DecisionId)>)
    requires forall k :: 0 <= k < |ids| ==> ids[k] in rows
    ensures |r| == |ids| && forall k :: 0 <= k < |r| ==> r[k] == (rows[ids[k]].value, ids[k])
  {
    if ids == [] then [] else [(rows[ids[0]].value, ids[0])] + ValuesWithIds(rows, ids[1..])
  }

  /** vars_for_template: fails unless the player has exactly
      NumDecisionsPerRound decisions; otherwise pairs each decision's value with
      its form (a form is identified by the decision it edits). */
  function VarsForTemplate(rows: map<DecisionId, Decision>, n: nat, p: PlayerId): (r: Result<seq<(int, DecisionId)>, PageError>)
    ensures r.Ok? <==> |DecisionSetOf(rows, n, p)| == NumDecisionsPerRound
    ensures r.Err? ==> r.error == WrongDecisionCount(|DecisionSetOf(rows, n, p)|)
    ensures r.Ok? ==> |r.value| == NumDecisionsPerRound
    ensures r.Ok? ==> forall k :: 0 <= k < |r.value| ==>
              r.value[k].1 in rows && rows[r.value[k].1].player == p && r.value[k].0 == rows[r.value[k].1].value
    ensures r.Ok? ==> forall i, j :: 0 <= i < j < |r.value| ==> r.value[i].1 < r.value[j].1
    ensures r.Ok? ==> |r.value| == |DecisionSetOf(rows, n, p)|
    ensures r.Ok? ==> forall k :: 0 <= k < |r.value| ==> r.value[k].1 == DecisionSetOf(rows, n, p)[k]
  {
    var ids := DecisionSetOf(rows, n, p);
    DecisionSetOfSpec(rows, n, p);
    if |ids| != NumDecisionsPerRound then Err(WrongDecisionCount(|ids|))
    else Ok(ValuesWithIds(rows, ids))
  }

  // ---------------------------------------------------------------------------
  // The submitted form
  // ---------------------------------------------------------------------------

  /** The key 'form-<i>-<field>' of the i-th form of the formset. */
  function FormKey(i: nat, field: string): string {
    "form-" + NatToString(i) + "-" + field
  }

  /** The three inputs of one form: the decision id and the two raw answers. */
  datatype Entry = Entry(id: int, decision: string, reason: string)

  /** Reads form i in the handler's order: the id key, int() of it, then the
      player_decision key and the reason key. */
  function ReadEntry(form: map<string, string>, i: nat): Result<Entry, PageError> {
    var idKey := FormKey(i, "id");
    if idKey !in form then Err(MissingKey(idKey))
    else match ParseInt(form[idKey])
      case None => Err(NotAnInteger(form[idKey]))
      case Some(id) =>
        var decisionKey := FormKey(i, "player_decision");
        var reasonKey := FormKey(i, "reason");
        if decisionKey !in form then Err(MissingKey(decisionKey))
        else if reasonKey !in form then Err(MissingKey(reasonKey))
        else Ok(Entry(id, form[decisionKey], form[reasonKey]))
  }

  /** The submitted player_decision: blank is None, and any other string is a
      yes exactly when it is "True". */
  function DecodeDecision(s: string): (r: Option<bool>)
    ensures r == None <==> s == ""
    ensures r == Some(true) <==> s == "True"
    ensures r == Some(false) <==> s != "" && s != "True"
  {
    if s != "" then Some(s == "True") else None
  }

  /** The submitted reason: blank is None, anything else is kept verbatim (it is
      not checked against Reasons). */
  function DecodeReason(s: string): (r: Option<string>)
    ensures r == None <==> s == ""
    ensures r.Some? ==> r.value == s
  {
    if s != "" then Some(s) else None
  }

  /** A decision after one form's answers are written onto it. */
  function Answer(d: Decision, e: Entry): (a: Decision)
    ensures a.value == d.value && a.player == d.player
    ensures a.playerDecision == DecodeDecision(e.decision) && a.reason == DecodeReason(e.reason)
  {
    d.(playerDecision := DecodeDecision(e.decision), reason := DecodeReason(e.reason))
  }

  /** What goes wrong at form i, if anything, given the player's decision ids. */
  function Problem(form: map<string, string>, owned: set<DecisionId>, i: nat): Option<PageError> {
    match ReadEntry(form, i)
    case Err(e) => Some(e)
    case Ok(e) => if e.id >= 0 && e.id as DecisionId in owned then None else Some(UnknownDecision(e.id))
  }

  /** One iteration of the handler's loop. */
  function Step(rows: map<DecisionId, Decision>, owned: set<DecisionId>, form: map<string, string>, i: nat)
    : Result<map<DecisionId, Decision>, PageError>
    requires owned <= rows.Keys
  {
    match ReadEntry(form, i)
    case Err(e) => Err(e)
    case Ok(e) =>
      if e.id >= 0 && e.id as DecisionId in owned then
        var id := e.id as DecisionId;
        Ok(rows[id := Answer(rows[id], e)])
      else Err(UnknownDecision(e.id))
  }

  /** The handler's loop from form i on: every write before a failure stays
      written, because each decision is saved on its own. */
  function RunFrom(rows: map<DecisionId, Decision>, owned: set<DecisionId>, form: map<string, string>, i: nat)
    : (map<DecisionId, Decision>, Option<PageError>)
    requires owned <= rows.Keys
    decreases NumDecisionsPerRound - i
  {
    if i >= NumDecisionsPerRound then (rows, None)
    else match Step(rows, owned, form, i)
      case Err(e) => (rows, Some(e))
      case Ok(rows') => RunFrom(rows', owned, form, i + 1)
  }

  /** before_next_page on the table's rows: the new rows and the failure, if any. */
  function Submit(rows: map<DecisionId, Decision>, n: nat, p: PlayerId, form: map<string, string>)
    : (map<DecisionId, Decision>, Option<PageError>)
  {
    var ids := DecisionSetOf(rows, n, p);
    DecisionSetOfSpec(rows, n, p);
    if |ids| != NumDecisionsPerRound then (rows, Some(WrongDecisionCount(|ids|)))
    else RunFrom(rows, (set id | id in ids), form, 0)
  }

  // ---------------------------------------------------------------------------
  // An independent description of the handler's outcome
  // ---------------------------------------------------------------------------

  /** The first form at or after i that goes wrong, or NumDecisionsPerRound. */
  function Reach(form: map<string, string>, owned: set<DecisionId>, i: nat): (r: nat)
    requires i <= NumDecisionsPerRound
    ensures i <= r <= NumDecisionsPerRound
    ensures r < NumDecisionsPerRound ==> Problem(form, owned, r).Some?
    decreases NumDecisionsPerRound - i
  {
    if i == NumDecisionsPerRound then i
    else if Problem(form, owned, i).Some? then i
    else Reach(form, owned, i + 1)
  }

  /** Form j reads cleanly and names decision `id`. */
  predicate FormNames(form: map<string, string>, j: nat, id: DecisionId) {
    ReadEntry(form, j).Ok? && ReadEntry(form, j).value.id == id
  }

  /** The last form in [lo, hi) that names `id`. */
  function LastNaming(form: map<string, string>, id: DecisionId, lo: nat, hi: nat): (r: Option<nat>)
    ensures r.Some? ==> lo <= r.value < hi && FormNames(form, r.value, id) &&
                        forall j :: r.value < j < hi ==> !FormNames(form, j, id)
    ensures r.None? ==> forall j :: lo <= j < hi ==> !FormNames(form, j, id)
    decreases hi
  {
    if hi <= lo then None
    else if FormNames(form, hi - 1, id) then Some(hi - 1)
    else LastNaming(form, id, lo, hi - 1)
  }

  lemma {:induction false} LastNamingLower(form: map<string, string>, id: DecisionId, lo: nat, hi: nat)
    requires lo < hi
    ensures LastNaming(form, id, lo, hi) ==
              match LastNaming(form, id, lo + 1, hi)
              case Some(j) => Some(j)
              case None => if FormNames(form, lo, id) then Some(lo) else None
    decreases hi
  {
    if hi - 1 > lo && !FormNames(form, hi - 1, id) {
      LastNamingLower(form, id, lo, hi - 1);
    }
  }

  /** The decision `id` after the forms in [lo, hi) have been applied. */
  function Outcome(rows: map<DecisionId, Decision>, form: map<string, string>, id: DecisionId, lo: nat, hi: nat): Decision
    requires id in rows
  {
    match LastNaming(form, id, lo, hi)
    case None => rows[id]
    case Some(j) => Answer(rows[id], ReadEntry(form, j).value)
  }

  /** The loop from form i on stops at the first form that goes wrong and
      reports that form's problem; each decision ends with the answers of the
      last form before that point that names it, or unchanged if none does. */
  lemma {:induction false} RunFromOutcome(rows: map<DecisionId, Decision>, owned: set<DecisionId>, form: map<string, string>, i: nat)
    requires owned <= rows.Keys && i <= NumDecisionsPerRound
    ensures RunFrom(rows, owned, form, i).0.Keys == rows.Keys
    ensures var stop := Reach(form, owned, i);
      RunFrom(rows, owned, form, i).1 == (if stop == NumDecisionsPerRound then None else Problem(form, owned, stop))
    ensures forall id :: id in rows ==>
              RunFrom(rows, owned, form, i).0[id] == Outcome(rows, form, id, i, Reach(form, owned, i))
    decreases NumDecisionsPerRound - i
  {
    if i < NumDecisionsPerRound {
      match Step(rows, owned, form, i)
      case Err(e) =>
        assert Problem(form, owned, i) == Some(e);
      case Ok(rows') =>
        var e := ReadEntry(form, i).value;
        var named := e.id as DecisionId;
        assert Problem(form, owned, i).None? && named in owned;
        assert rows' == rows[named := Answer(rows[named], e)];
        var stop := Reach(form, owned, i);
        assert stop == Reach(form, owned, i + 1);
        assert RunFrom(rows, owned, form, i) == RunFrom(rows', owned, form, i + 1);
        RunFromOutcome(rows', owned, form, i + 1);
        forall id | id in rows
          ensures RunFrom(rows', owned, form, i + 1).0[id] == Outcome(rows, form, id, i, stop)
        {
          LastNamingLower(form, id, i, stop);
          assert FormNames(form, i, id) <==> id == named;
        }
    }
  }

  /** before_next_page, as a whole: it fails on a count other than
      NumDecisionsPerRound without writing anything; otherwise it writes the
      forms before the first bad one (a missing key, an id int() rejects, an id
      not among the player's decisions) and reports that one.  Only
      player_decision and reason ever change; a decision takes the answers of
      the last applied form that names it, and decisions no applied form names
      are untouched. */
  lemma SubmitOutcome(rows: map<DecisionId, Decision>, n: nat, p: PlayerId, form: map<string, string>)
    ensures var ids := DecisionSetOf(rows, n, p);
      |ids| != NumDecisionsPerRound ==>
        Submit(rows, n, p, form) == (rows, Some(WrongDecisionCount(|ids|)))
    ensures var ids := DecisionSetOf(rows, n, p);
      var owned := set id | id in ids;
      |ids| == NumDecisionsPerRound ==>
        var stop := Reach(form, owned, 0);
        var (out, err) := Submit(rows, n, p, form);
        out.Keys == rows.Keys &&
        err == (if stop == NumDecisionsPerRound then None else Problem(form, owned, stop)) &&
        forall id :: id in rows ==> out[id] == Outcome(rows, form, id, 0, stop)
  {
    var ids := DecisionSetOf(rows, n, p);
    DecisionSetOfSpec(rows, n, p);
    if |ids| == NumDecisionsPerRound {
      RunFromOutcome(rows, (set id | id in ids), form, 0);
    }
  }

  /** Reach is NumDecisionsPerRound exactly when no form from i on goes wrong. */
  lemma {:induction false} ReachAll(form: map<string, string>, owned: set<DecisionId>, i: nat)
    requires i <= NumDecisionsPerRound
    ensures Reach(form, owned, i) == NumDecisionsPerRound <==>
              forall j :: i <= j < NumDecisionsPerRound ==> Problem(form, owned, j).None?
    decreases NumDecisionsPerRound - i
  {
    if i < NumDecisionsPerRound && Problem(form, owned, i).None? {
      ReachAll(form, owned, i + 1);
    }
  }

  /** The submission succeeds exactly when the player has NumDecisionsPerRound
      decisions and every form has its three keys, an integer id, and an id
      that is one of the player's decisions. */
  lemma SubmitSucceedsIff(rows: map<DecisionId, Decision>, n: nat, p: PlayerId, form: map<string, string>)
    ensures Submit(rows, n, p, form).1 == None <==>
              |DecisionSetOf(rows, n, p)| == NumDecisionsPerRound &&
              forall j :: 0 <= j < NumDecisionsPerRound ==>
                ReadEntry(form, j).Ok? &&
                ReadEntry(form, j).value.id >= 0 && ReadEntry(form, j).value.id in DecisionSetOf(rows, n, p)
  {
    var ids := DecisionSetOf(rows, n, p);
    var owned := set id | id in ids;
    SubmitOutcome(rows, n, p, form);
    ReachAll(form, owned, 0);
    assert forall j: nat :: Problem(form, owned, j).None? <==>
             ReadEntry(form, j).Ok? && ReadEntry(form, j).value.id >= 0 && ReadEntry(form, j).value.id in ids;
  }

  /** Whatever the form holds, no decision's value or owner changes, no row
      appears or disappears, and so every player's decision set is the same
      afterwards. */
  lemma SubmitKeepsValuesAndOwners(rows: map<DecisionId, Decision>, n: nat, p: PlayerId, form: map<string, string>)
    ensures var out := Submit(rows, n, p, form).0;
      out.Keys == rows.Keys &&
      (forall id :: id in rows ==> out[id].value == rows[id].value && out[id].player == rows[id].player) &&
      forall q :: DecisionSetOf(out, n, q) == DecisionSetOf(rows, n, q)
  {
    SubmitOutcome(rows, n, p, form);
    var out := Submit(rows, n, p, form).0;
    forall q ensures DecisionSetOf(out, n, q) == DecisionSetOf(rows, n, q) {
      DecisionSetOfFrame(rows, out, n, q);
    }
  }

  /** On success, a decision named by form j and by no later form holds form
      j's answers; a decision no form names is unchanged. */
  lemma SubmitLastWins(rows: map<DecisionId, Decision>, n: nat, p: PlayerId, form: map<string, string>, id: DecisionId)
    requires id in rows && Submit(rows, n, p, form).1 == None
    ensures forall j :: 0 <= j < NumDecisionsPerRound && FormNames(form, j, id) &&
                        (forall j' :: j < j' < NumDecisionsPerRound ==> !FormNames(form, j', id)) ==>
              Submit(rows, n, p, form).0[id].playerDecision == DecodeDecision(ReadEntry(form, j).value.decision) &&
              Submit(rows, n, p, form).0[id].reason == DecodeReason(ReadEntry(form, j).value.reason)
    ensures (forall j :: 0 <= j < NumDecisionsPerRound ==> !FormNames(form, j, id)) ==>
              Submit(rows, n, p, form).0[id] == rows[id]
  {
    SubmitOutcome(rows, n, p, form);
    var ids := DecisionSetOf(rows, n, p);
    var owned := set id | id in ids;
    assert |ids| == NumDecisionsPerRound;
    assert Reach(form, owned, 0) == NumDecisionsPerRound;
    var out := Submit(rows, n, p, form).0;
    assert out[id] == Outcome(rows, form, id, 0, NumDecisionsPerRound);
    forall j | 0 <= j < NumDecisionsPerRound && FormNames(form, j, id) &&
               (forall j' :: j < j' < NumDecisionsPerRound ==> !FormNames(form, j', id))
      ensures out[id].playerDecision == DecodeDecision(ReadEntry(form, j).value.decision)
      ensures out[id].reason == DecodeReason(ReadEntry(form, j).value.reason)
    {
      assert LastNaming(form, id, 0, NumDecisionsPerRound) == Some(j);
    }
  }

  /** A stored reason that is blank or one of the declared codes. */
  predicate DeclaredOrBlank(reason: Option<string>) {
    reason.None? || reason.value in ReasonCodes()
  }

  /** The handler stores only declared reasons as long as the table held only
      declared reasons and every form it reads sends a blank or declared one. */
  lemma SubmitKeepsDeclaredReasons(rows: map<DecisionId, Decision>, n: nat, p: PlayerId, form: map<string, string>)
    requires forall id :: id in rows ==> DeclaredOrBlank(rows[id].reason)
    requires forall j :: 0 <= j < NumDecisionsPerRound && ReadEntry(form, j).Ok? ==>
               ReadEntry(form, j).value.reason == "" || ReadEntry(form, j).value.reason in ReasonCodes()
    ensures forall id :: id in Submit(rows, n, p, form).0 ==> DeclaredOrBlank(Submit(rows, n, p, form).0[id].reason)
  {
    SubmitOutcome(rows, n, p, form);
    var ids := DecisionSetOf(rows, n, p);
    var out := Submit(rows, n, p, form).0;
    if |ids| == NumDecisionsPerRound {
      var stop := Reach(form, set id | id in ids, 0);
      forall id | id in out
        ensures DeclaredOrBlank(out[id].reason)
      {
        assert out[id] == Outcome(rows, form, id, 0, stop);
      }
    }
  }

  /** Nothing checks the reason against the declared codes: on success, the
      last form naming a decision stores its non-blank reason as sent, so a
      code outside the declared ones ends up in the table. */
  lemma SubmitStoresAnyReason(rows: map<DecisionId, Decision>, n: nat, p: PlayerId, form: map<string, string>,
                              id: DecisionId, j: nat)
    requires id in rows && Submit(rows, n, p, form).1 == None
    requires j < NumDecisionsPerRound && FormNames(form, j, id)
    requires forall j' :: j < j' < NumDecisionsPerRound ==> !FormNames(form, j', id)
    requires ReadEntry(form, j).value.reason != ""
    ensures Submit(rows, n, p, form).0[id].reason == Some(ReadEntry(form, j).value.reason)
    ensures ReadEntry(form, j).value.reason !in ReasonCodes() ==>
              !DeclaredOrBlank(Submit(rows, n, p, form).0[id].reason)
  {
    SubmitLastWins(rows, n, p, form, id);
  }

  // ---------------------------------------------------------------------------
  // The handler
  // ---------------------------------------------------------------------------

  /** MakeDecisionsPage.before_next_page: reads forms 0 to
      NumDecisionsPerRound - 1 and writes each one's answers onto the decision
      it names, saving as it goes. */
  method BeforeNextPage(table: DecisionTable, p: PlayerId, form: map<string, string>) returns (err: Option<PageError>)
    requires table.Valid()
    modifies table
    ensures table.Valid() && table.nextId == old(table.nextId)
    ensures (table.rows, err) == Submit(old(table.rows), old(table.nextId), p, form)
  {
    var ids := DecisionSetOf(table.rows, table.nextId, p);  // self.player.decision_set.all()
    DecisionSetOfSpec(table.rows, table.nextId, p);
    var owned := set id | id in ids;
    if |ids| != NumDecisionsPerRound {
      return Some(WrongDecisionCount(|ids|));
    }
    ghost var target := Submit(table.rows, table.nextId, p, form);
    var i := 0;
    while i < NumDecisionsPerRound
      invariant 0 <= i <= NumDecisionsPerRound
      invariant table.Valid() && table.nextId == old(table.nextId)
      invariant owned <= table.rows.Keys && table.rows.Keys == old(table.rows).Keys
      invariant RunFrom(table.rows, owned, form, i) == target
    {
      var prefix := "form-" + NatToString(i) + "-";
      assert prefix + "id" == FormKey(i, "id");
      assert prefix + "player_decision" == FormKey(i, "player_decision");
      assert prefix + "reason" == FormKey(i, "reason");
      if prefix + "id" !in form {
        return Some(MissingKey(prefix + "id"));
      }
      var parsed := ParseInt(form[prefix + "id"]);
      if parsed.None? {
        return Some(NotAnInteger(form[prefix + "id"]));
      }
      if prefix + "player_decision" !in form {
        return Some(MissingKey(prefix + "player_decision"));
      }
      if prefix + "reason" !in form {
        return Some(MissingKey(prefix + "reason"));
      }
      var decId := parsed.value;
      var playerDecision := form[prefix + "player_decision"];
      var reason := form[prefix + "reason"];
      if !(decId >= 0 && decId as DecisionId in owned) {
        return Some(UnknownDecision(decId));
      }
      var dec := table.rows[decId as DecisionId];
      if playerDecision != "" {
        dec := dec.(playerDecision := Some(playerDecision == "True"));
      } else {
        dec := dec.(playerDecision := None);
      }
      if reason != "" {
        dec := dec.(reason := Some(reason));
      } else {
        dec := dec.(reason := None);
      }
      table.rows := table.rows[decId as DecisionId := dec];  // dec.save()
      i := i + 1;
    }
    err := None;
  }

  /** The count is invariant across submissions: a player whose page renders
      before the submission still renders afterwards, whatever the form holds. */
  lemma SubmitKeepsPageRenderable(rows: map<DecisionId, Decision>, n: nat, p: PlayerId, form: map<string, string>, q: PlayerId)
    requires VarsForTemplate(rows, n, q).Ok?
    ensures VarsForTemplate(Submit(rows, n, p, form).0, n, q).Ok?
  {
    SubmitKeepsValuesAndOwners(rows, n, p, form);
  }

  /** The round-start hook leaves every listed player (listed once, with no
      decisions yet, as for a new round's Player rows) with a page that renders. */
  method RoundStartThenRender(table: DecisionTable, players: seq<PlayerId>, p: PlayerId)
    requires table.Valid()
    requires multiset(players)[p] == 1 && DecisionSetOf(table.rows, table.nextId, p) == []
    modifies table
    ensures table.Valid()
    ensures VarsForTemplate(table.rows, table.nextId, p).Ok?
  {
    BeforeSessionStarts(table, players);
  }
}
