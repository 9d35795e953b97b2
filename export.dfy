/** The JSON export (export_view_json in example_decisions/views.py): sessions,
    then their subsessions, groups, players and decisions, each level sorted by
    its own key, each object written as an ordered dictionary of the attributes
    its field list names.  The field list of each kind of object is looked up
    for the first object of that kind and reused while it is non-empty. */
module Export {
  import opened Common
  import opened Utils
  import opened Models

  /** The JSON values the export builds.  An object is an OrderedDict: its
      (key, value) pairs in insertion order. */
  datatype Value =
    | Null
    | Bool(b: bool)
    | Int(i: int)
    | Str(s: string)
    | List(items: seq<Value>)
    | Object(entries: seq<(string, Value)>)

  // ---------------------------------------------------------------------------
  // OrderedDict
  // ---------------------------------------------------------------------------

  function Keys(d: seq<(string, Value)>): (ks: seq<string>)
    ensures |ks| == |d| && forall k :: 0 <= k < |d| ==> ks[k] == d[k].0
  {
    if d == [] then [] else [d[0].0] + Keys(d[1..])
  }

  /** `d[key]`, or None when the key is absent. */
  function Lookup(d: seq<(string, Value)>, key: string): Option<Value> {
    if d == [] then None else if d[0].0 == key then Some(d[0].1) else Lookup(d[1..], key)
  }

  /** `d[key] = v`: an existing key keeps its place and takes the new value,
      a new key goes last; no other key's value changes. */
  function Put(d: seq<(string, Value)>, key: string, v: Value): seq<(string, Value)>
    decreases |d|
  {
    if d == [] then [(key, v)]
    else if d[0].0 == key then [(key, v)] + d[1..]
    else [d[0]] + Put(d[1..], key, v)
  }

  /** `d[key] = v` on an OrderedDict: an existing key keeps its place and takes
      the new value, a new key goes last; no other key's value changes. */
  lemma {:induction false} PutSpec(d: seq<(string, Value)>, key: string, v: Value)
    ensures Keys(Put(d, key, v)) == if key in Keys(d) then Keys(d) else Keys(d) + [key]
    ensures Lookup(Put(d, key, v), key) == Some(v)
    ensures forall other :: other != key ==> Lookup(Put(d, key, v), other) == Lookup(d, other)
    decreases |d|
  {
    if d != [] && d[0].0 != key {
      PutSpec(d[1..], key, v);
      assert Keys(d) == [d[0].0] + Keys(d[1..]);
      assert Keys([d[0]] + Put(d[1..], key, v)) == [d[0].0] + Keys(Put(d[1..], key, v));
    }
  }

  /** Two new keys set after a dictionary's own keys go last, in order;
      every other key keeps its value. */
  lemma TwoPuts(d: seq<(string, Value)>, k1: string, v1: Value, k2: string, v2: Value)
    requires k1 != k2
    ensures k1 !in Keys(d) && k2 !in Keys(d) ==> Keys(Put(Put(d, k1, v1), k2, v2)) == Keys(d) + [k1, k2]
    ensures Lookup(Put(Put(d, k1, v1), k2, v2), k1) == Some(v1)
    ensures Lookup(Put(Put(d, k1, v1), k2, v2), k2) == Some(v2)
    ensures forall other :: other != k1 && other != k2 ==> Lookup(Put(Put(d, k1, v1), k2, v2), other) == Lookup(d, other)
  {
    PutSpec(d, k1, v1);
    PutSpec(Put(d, k1, v1), k2, v2);
  }

  // ---------------------------------------------------------------------------
  // ORM objects
  // ---------------------------------------------------------------------------

  /** An ORM object: its primary key, its model class and its attribute values. */
  datatype Obj = Obj(pk: nat, cls: ModelClass, attrs: map<string, Value>)

  /** A player with its participant's id_in_session. `hasDecisionSet` says
      whether its class is this app's Player, the only player class with a
      `decision_set` relation; a session may also hold other apps' rounds. */
  datatype PlayerNode = PlayerNode(obj: Obj, idInSession: int, hasDecisionSet: bool)

  /** A group with its id_in_subsession and its players (get_players()). */
  datatype GroupNode = GroupNode(obj: Obj, idInSubsession: int, players: seq<PlayerNode>)

  /** A subsession with its round_number and its groups (get_groups()). */
  datatype SubsessionNode = SubsessionNode(obj: Obj, roundNumber: int, groups: seq<GroupNode>)

  /** A session with its label and its subsessions (get_subsessions()). */
  datatype SessionNode = SessionNode(obj: Obj, sessionLabel: string, subsessions: seq<SubsessionNode>)

  /** A missing attribute (AttributeError from getattr), or no field list at
      all (iterating None is a TypeError). */
  datatype ExportError = NoAttribute(name: string) | NoFieldNames

  /** What the export reads besides the objects: the framework's base-class
      columns and the Decision table. */
  datatype Context = Context(bases: Bases, rows: map<DecisionId, Decision>, nextId: nat)

  // ---------------------------------------------------------------------------
  // create_odict_from_object
  // ---------------------------------------------------------------------------

  /** The OrderedDict built by setting `data[f] = getattr(obj, f)` for each f in turn. */
  function OdictFrom(obj: Obj, names: seq<string>): Result<seq<(string, Value)>, ExportError>
    decreases |names|
  {
    if names == [] then Ok([])
    else match OdictFrom(obj, names[..|names| - 1])
      case Err(e) => Err(e)
      case Ok(d) =>
        var f := names[|names| - 1];
        if f in obj.attrs then Ok(Put(d, f, obj.attrs[f])) else Err(NoAttribute(f))
  }

  /** create_odict_from_object succeeds exactly when every listed name is an attribute. */
  lemma {:induction false} OdictFromOk(obj: Obj, names: seq<string>)
    ensures OdictFrom(obj, names).Ok? <==> forall k :: 0 <= k < |names| ==> names[k] in obj.attrs
    decreases |names|
  {
    if names != [] {
      var prefix := names[..|names| - 1];
      OdictFromOk(obj, prefix);
      assert forall k :: 0 <= k < |prefix| ==> prefix[k] == names[k];
    }
  }

  /** On success the dictionary has one key per distinct name, in first-listed
      order, and each key holds that attribute of the object. */
  lemma {:induction false} OdictFromContents(obj: Obj, names: seq<string>)
    requires OdictFrom(obj, names).Ok?
    ensures Keys(OdictFrom(obj, names).value) == Dedup(names)
    ensures forall f :: f in names ==> f in obj.attrs && Lookup(OdictFrom(obj, names).value, f) == Some(obj.attrs[f])
    decreases |names|
  {
    if names != [] {
      var prefix := names[..|names| - 1];
      var f := names[|names| - 1];
      OdictFromContents(obj, prefix);
      var d := OdictFrom(obj, prefix).value;
      PutSpec(d, f, obj.attrs[f]);
      assert forall x :: x in names <==> x in prefix || x == f;
    }
  }

  /** On failure the error names the first listed name that is not an attribute. */
  lemma {:induction false} OdictFromError(obj: Obj, names: seq<string>)
    requires OdictFrom(obj, names).Err?
    ensures exists k :: 0 <= k < |names| && names[k] !in obj.attrs &&
              (forall j :: 0 <= j < k ==> names[j] in obj.attrs) &&
              OdictFrom(obj, names).error == NoAttribute(names[k])
    decreases |names|
  {
    var prefix := names[..|names| - 1];
    assert forall k :: 0 <= k < |prefix| ==> prefix[k] == names[k];
    if OdictFrom(obj, prefix).Err? {
      OdictFromError(obj, prefix);
      var k :| 0 <= k < |prefix| && prefix[k] !in obj.attrs &&
               (forall j :: 0 <= j < k ==> prefix[j] in obj.attrs) &&
               OdictFrom(obj, prefix).error == NoAttribute(prefix[k]);
      assert names[k] !in obj.attrs;
    } else {
      OdictFromOk(obj, prefix);
      assert names[|names| - 1] !in obj.attrs;
    }
  }

  /** Once a prefix of the names fails, the whole list fails the same way. */
  lemma {:induction false} OdictFromFailsEarly(obj: Obj, names: seq<string>, i: nat)
    requires i <= |names| && OdictFrom(obj, names[..i]).Err?
    ensures OdictFrom(obj, names) == OdictFrom(obj, names[..i])
    decreases |names| - i
  {
    if i < |names| {
      assert names[..i + 1][..i] == names[..i];
      OdictFromFailsEarly(obj, names, i + 1);
    } else {
      assert names[..i] == names;
    }
  }

  /** The entries of an object under a field list that may be None. */
  function ObjectEntries(obj: Obj, names: Option<seq<string>>): Result<seq<(string, Value)>, ExportError> {
    match names
    case None => Err(NoFieldNames)
    case Some(fs) => OdictFrom(obj, fs)
  }

  /** create_odict_from_object(obj, fieldnames). */
  method CreateOdictFromObject(obj: Obj, names: Option<seq<string>>) returns (r: Result<seq<(string, Value)>, ExportError>)
    ensures r == ObjectEntries(obj, names)
  {
    if names.None? {
      return Err(NoFieldNames);
    }
    var fs := names.value;
    var data: seq<(string, Value)> := [];
    for i := 0 to |fs|
      invariant OdictFrom(obj, fs[..i]) == Ok(data)
    {
      var f := fs[i];
      assert fs[..i + 1][..i] == fs[..i];
      if f !in obj.attrs {
        OdictFromFailsEarly(obj, fs, i + 1);
        return Err(NoAttribute(f));
      }
      data := Put(data, f, obj.attrs[f]);
    }
    assert fs[..|fs|] == fs;
    r := Ok(data);
  }

  // ---------------------------------------------------------------------------
  // Field lists looked up once per kind
  // ---------------------------------------------------------------------------

  /** The four `*_fieldnames` variables, each starting as []. */
  datatype Caches = Caches(session: Option<seq<string>>, subsession: Option<seq<string>>,
                           group: Option<seq<string>>, player: Option<seq<string>>)

  const NoCaches: Caches := Caches(Some([]), Some([]), Some([]), Some([]))

  /** A field list that `or` keeps: a non-empty list. */
  predicate Fixed(names: Option<seq<string>>) {
    names.Some? && names.value != []
  }

  /** `cached or get_field_names_for_csv(obj.__class__)`. */
  function Refresh(cached: Option<seq<string>>, cls: ModelClass, bases: Bases): (r: Option<seq<string>>)
    ensures Fixed(cached) ==> r == cached
    ensures !Fixed(cached) ==> r == GetFieldNamesForCsv(cls, bases)
  {
    if Fixed(cached) then cached else GetFieldNamesForCsv(cls, bases)
  }

  /** A fixed field list stays as it is. */
  predicate Kept(before: Option<seq<string>>, after: Option<seq<string>>) {
    Fixed(before) ==> after == before
  }

  predicate Keeps(c: Caches, c': Caches) {
    Kept(c.session, c'.session) && Kept(c.subsession, c'.subsession) &&
    Kept(c.group, c'.group) && Kept(c.player, c'.player)
  }

  // ---------------------------------------------------------------------------
  // The export, level by level
  // ---------------------------------------------------------------------------

  /** One object's output and the field lists after it. */
  type Step<!T> = (T, Caches) -> Result<(Value, Caches), ExportError>

  /** The outputs of a sibling list in order, threading the field lists from
      each sibling to the next and stopping at the first failure. */
  function Fold<T>(xs: seq<T>, c: Caches, step: Step<T>): (r: Result<(seq<Value>, Caches), ExportError>)
    ensures r.Ok? ==> |r.value.0| == |xs|
    decreases |xs|
  {
    if xs == [] then Ok(([], c))
    else match step(xs[0], c)
      case Err(e) => Err(e)
      case Ok((v, c1)) =>
        match Fold(xs[1..], c1, step)
        case Err(e) => Err(e)
        case Ok((vs, c2)) => Ok(([v] + vs, c2))
  }

  /** Outputs already appended, followed by the rest. */
  function Then(done: seq<Value>, rest: Result<(seq<Value>, Caches), ExportError>): (r: Result<(seq<Value>, Caches), ExportError>)
    ensures done == [] ==> r == rest
  {
    match rest
    case Err(e) => Err(e)
    case Ok((vs, c)) => assert [] + vs == vs; Ok((done + vs, c))
  }

  /** Taking one more sibling: its failure ends the fold, its output joins
      the ones already appended. */
  lemma FoldAdvance<T>(xs: seq<T>, i: nat, out: seq<Value>, c: Caches, step: Step<T>)
    requires i < |xs|
    ensures step(xs[i], c).Err? ==>
              Then(out, Fold(xs[i..], c, step)) == Err(step(xs[i], c).error)
    ensures step(xs[i], c).Ok? ==>
              Then(out, Fold(xs[i..], c, step)) ==
                Then(out + [step(xs[i], c).value.0], Fold(xs[i + 1..], step(xs[i], c).value.1, step))
  {
    assert xs[i..][0] == xs[i] && xs[i..][1..] == xs[i + 1..];
    match step(xs[i], c)
    case Err(_) =>
    case Ok((v, c1)) =>
      match Fold(xs[i + 1..], c1, step)
      case Err(_) =>
      case Ok((vs, c2)) => assert out + ([v] + vs) == (out + [v]) + vs;
  }

  /** Every step leaves a fixed field list as it is. */
  ghost predicate StepKeeps<T(!new)>(step: Step<T>) {
    forall x, c :: step(x, c).Ok? ==> Keeps(c, step(x, c).value.1)
  }

  /** The step writes `v` for `x` when it starts from the field lists `c`. */
  ghost predicate OutputOf<T>(step: Step<T>, x: T, c: Caches, v: Value) {
    step(x, c).Ok? && step(x, c).value.0 == v
  }

  /** The field lists a fold leaves behind (`c` itself if it fails). */
  function FoldCaches<T>(xs: seq<T>, c: Caches, step: Step<T>): Caches {
    match Fold(xs, c, step)
    case Ok((_, c1)) => c1
    case Err(_) => c
  }

  /** Folding the first i siblings: the first step, then the next i - 1. */
  lemma FoldPrefix<T>(xs: seq<T>, c: Caches, step: Step<T>, i: nat)
    requires 0 < i <= |xs| && step(xs[0], c).Ok?
    ensures Fold(xs[..i], c, step) ==
              match Fold(xs[1..][..i - 1], step(xs[0], c).value.1, step)
              case Err(e) => Err(e)
              case Ok((vs, c2)) => Ok(([step(xs[0], c).value.0] + vs, c2))
  {
    assert xs[..i][0] == xs[0] && xs[..i][1..] == xs[1..][..i - 1];
  }

  /** A fold that succeeds succeeds on every prefix, and writes the i-th
      sibling's output from exactly the field lists the first i siblings left;
      when every step keeps fixed field lists, every prefix keeps them too. */
  lemma {:induction false} FoldFacts<T(!new)>(xs: seq<T>, c: Caches, step: Step<T>)
    requires Fold(xs, c, step).Ok?
    ensures forall i :: 0 <= i < |xs| ==>
              Fold(xs[..i], c, step).Ok? &&
              OutputOf(step, xs[i], FoldCaches(xs[..i], c, step), Fold(xs, c, step).value.0[i])
    ensures StepKeeps(step) ==> forall i :: 0 <= i <= |xs| ==> Keeps(c, FoldCaches(xs[..i], c, step))
    ensures StepKeeps(step) ==> Keeps(c, Fold(xs, c, step).value.1)
    decreases |xs|
  {
    assert xs[..0] == [];
    if xs != [] {
      var v := step(xs[0], c).value.0;
      var c1 := step(xs[0], c).value.1;
      var rest := xs[1..];
      FoldFacts(rest, c1, step);
      var vs := Fold(xs, c, step).value.0;
      assert vs == [v] + Fold(rest, c1, step).value.0;
      forall i | 0 < i <= |xs|
        ensures Fold(xs[..i], c, step).Ok? || i == |xs|
        ensures FoldCaches(xs[..i], c, step) == FoldCaches(rest[..i - 1], c1, step)
      {
        FoldPrefix(xs, c, step, i);
        if i - 1 == |rest| {
          assert rest[..i - 1] == rest;
        }
      }
      forall i | 0 <= i < |xs|
        ensures Fold(xs[..i], c, step).Ok?
        ensures OutputOf(step, xs[i], FoldCaches(xs[..i], c, step), vs[i])
      {
        if i > 0 {
          assert xs[i] == rest[i - 1] && vs[i] == Fold(rest, c1, step).value.0[i - 1];
        }
      }
      assert xs[..|xs|] == xs;
    }
  }

  /** Which of the four field lists. */
  datatype ListKind = SessionList | SubsessionList | GroupList | PlayerList

  function ListOf(c: Caches, k: ListKind): Option<seq<string>> {
    match k
    case SessionList => c.session
    case SubsessionList => c.subsession
    case GroupList => c.group
    case PlayerList => c.player
  }

  /** Once the first sibling leaves a kind's field list fixed, every later
      sibling finds that same list. */
  lemma FoldSharesList<T(!new)>(xs: seq<T>, c: Caches, step: Step<T>, k: ListKind)
    requires Fold(xs, c, step).Ok? && StepKeeps(step) && xs != []
    requires step(xs[0], c).Ok? && Fixed(ListOf(step(xs[0], c).value.1, k))
    ensures forall i :: 0 < i <= |xs| ==>
              ListOf(FoldCaches(xs[..i], c, step), k) == ListOf(step(xs[0], c).value.1, k)
  {
    var c1 := step(xs[0], c).value.1;
    FoldFacts(xs[1..], c1, step);
    forall i | 0 < i <= |xs|
      ensures ListOf(FoldCaches(xs[..i], c, step), k) == ListOf(c1, k)
    {
      FoldPrefix(xs, c, step, i);
      if i == |xs| {
        assert xs[..i] == xs;
      } else {
        FoldFacts(xs, c, step);
      }
      assert Keeps(c1, FoldCaches(xs[1..][..i - 1], c1, step));
      assert FoldCaches(xs[..i], c, step) == FoldCaches(xs[1..][..i - 1], c1, step);
    }
  }

  const DecisionFieldNames: seq<string> := ["value", "player_decision", "reason"]

  /** The JSON form of a nullable boolean and a nullable string. */
  function BoolOrNull(o: Option<bool>): Value {
    match o case None => Null case Some(b) => Bool(b)
  }

  function StrOrNull(o: Option<string>): Value {
    match o case None => Null case Some(s) => Str(s)
  }

  /** A Decision as an ORM object. */
  function DecisionObj(id: DecisionId, d: Decision): Obj {
    Obj(id, ModelClass(OtherModel, []),
        map["id" := Int(id), "value" := Int(d.value),
            "player_decision" := BoolOrNull(d.playerDecision), "reason" := StrOrNull(d.reason)])
  }

  /** What a decision's entry is meant to be: value, player_decision and
      reason, in that order and nothing else. */
  function DecisionJson(d: Decision): Value {
    Object([("value", Int(d.value)), ("player_decision", BoolOrNull(d.playerDecision)),
            ("reason", StrOrNull(d.reason))])
  }

  /** create_odict_from_object(dec, decision_fieldnames) never fails and gives DecisionJson. */
  lemma DecisionEntry(id: DecisionId, d: Decision)
    ensures ObjectEntries(DecisionObj(id, d), Some(DecisionFieldNames)) == Ok(DecisionJson(d).entries)
  {
    var obj := DecisionObj(id, d);
    var v1, v2, v3 := Int(d.value), BoolOrNull(d.playerDecision), StrOrNull(d.reason);
    var n1: seq<string> := ["value"];
    var n2: seq<string> := ["value", "player_decision"];
    assert n1[..0] == [] && n2[..1] == n1 && DecisionFieldNames[..2] == n2;
    assert obj.attrs["value"] == v1 && obj.attrs["player_decision"] == v2 && obj.attrs["reason"] == v3;
    assert Put([], "value", v1) == [("value", v1)];
    assert OdictFrom(obj, n1) == Ok([("value", v1)]);
    assert Put([("value", v1)], "player_decision", v2) == [("value", v1), ("player_decision", v2)];
    assert OdictFrom(obj, n2) == Ok([("value", v1), ("player_decision", v2)]);
    var two: seq<(string, Value)> := [("value", v1), ("player_decision", v2)];
    assert two[1..] == [("player_decision", v2)];
    assert Put([("player_decision", v2)], "reason", v3) == [("player_decision", v2), ("reason", v3)];
    assert Put(two, "reason", v3) ==
           [("value", v1), ("player_decision", v2), ("reason", v3)];
  }

  /** The DecisionJson of each decision `ids` names, in order. */
  function DecisionsJson(rows: map<DecisionId, Decision>, ids: seq<DecisionId>): (r: seq<Value>)
    requires forall k :: 0 <= k < |ids| ==> ids[k] in rows
    ensures |r| == |ids|
    decreases |ids|
  {
    if ids == [] then [] else [DecisionJson(rows[ids[0]])] + DecisionsJson(rows, ids[1..])
  }

  /** The outputs of the decisions `ids`, in order. */
  function DecisionsOutput(rows: map<DecisionId, Decision>, ids: seq<DecisionId>): Result<seq<Value>, ExportError>
    requires forall k :: 0 <= k < |ids| ==> ids[k] in rows
    decreases |ids|
  {
    if ids == [] then Ok([])
    else match ObjectEntries(DecisionObj(ids[0], rows[ids[0]]), Some(DecisionFieldNames))
      case Err(e) => Err(e)
      case Ok(d) =>
        match DecisionsOutput(rows, ids[1..])
        case Err(e) => Err(e)
        case Ok(rest) => Ok([Object(d)] + rest)
  }

  /** Entries already appended, followed by the rest. */
  function Prepend(done: seq<Value>, rest: Result<seq<Value>, ExportError>): (r: Result<seq<Value>, ExportError>)
    ensures done == [] ==> r == rest
  {
    match rest
    case Err(e) => Err(e)
    case Ok(vs) => assert [] + vs == vs; Ok(done + vs)
  }

  lemma DecisionsAdvance(rows: map<DecisionId, Decision>, ids: seq<DecisionId>, i: nat, out: seq<Value>)
    requires i < |ids| && forall k :: 0 <= k < |ids| ==> ids[k] in rows
    ensures var e := ObjectEntries(DecisionObj(ids[i], rows[ids[i]]), Some(DecisionFieldNames));
      (e.Err? ==> Prepend(out, DecisionsOutput(rows, ids[i..])) == Err(e.error)) &&
      (e.Ok? ==> Prepend(out, DecisionsOutput(rows, ids[i..])) ==
                   Prepend(out + [Object(e.value)], DecisionsOutput(rows, ids[i + 1..])))
  {
    assert ids[i..][0] == ids[i] && ids[i..][1..] == ids[i + 1..];
    match DecisionsOutput(rows, ids[i + 1..])
    case Err(_) =>
    case Ok(vs) =>
      var e := ObjectEntries(DecisionObj(ids[i], rows[ids[i]]), Some(DecisionFieldNames));
      if e.Ok? {
        assert out + ([Object(e.value)] + vs) == (out + [Object(e.value)]) + vs;
      }
  }

  /** The decision loop never fails: it lists the DecisionJson of each id, in order. */
  lemma {:induction false} DecisionsOutputOk(rows: map<DecisionId, Decision>, ids: seq<DecisionId>)
    requires forall k :: 0 <= k < |ids| ==> ids[k] in rows
    ensures DecisionsOutput(rows, ids) == Ok(DecisionsJson(rows, ids))
    ensures forall k :: 0 <= k < |ids| ==> DecisionsJson(rows, ids)[k] == DecisionJson(rows[ids[k]])
    decreases |ids|
  {
    if ids != [] {
      DecisionEntry(ids[0], rows[ids[0]]);
      DecisionsOutputOk(rows, ids[1..]);
    }
  }

  function PlayerKey(p: PlayerNode): Key { IntKey(p.idInSession) }
  function GroupKey(g: GroupNode): Key { IntKey(g.idInSubsession) }
  function SubsessionKey(s: SubsessionNode): Key { IntKey(s.roundNumber) }
  function SessionKey(s: SessionNode): Key { StrKey(s.sessionLabel) }

  /** A context read from a Decision table: every row sits below the next key. */
  predicate TableContext(ctx: Context) {
    forall id :: id in ctx.rows ==> id < ctx.nextId
  }

  /** Read from a table, the decisions written for a player are all of the
      player's rows, each once, by ascending id. */
  lemma PlayerDecisionsComplete(ctx: Context, p: PlayerNode)
    requires TableContext(ctx)
    ensures var ids := DecisionSetOf(ctx.rows, ctx.nextId, p.obj.pk);
      (forall id :: id in ctx.rows && ctx.rows[id].player == p.obj.pk <==> id in ids) &&
      forall i, j :: 0 <= i < j < |ids| ==> ids[i] < ids[j]
  {
    DecisionSetOfSpec(ctx.rows, ctx.nextId, p.obj.pk);
  }

  /** A player's entry: its fields, then participant_id_in_session, then its
      decisions ordered by id. */
  function PlayerOutput(ctx: Context, p: PlayerNode, c: Caches): Result<(Value, Caches), ExportError> {
    var names := Refresh(c.player, p.obj.cls, ctx.bases);
    match ObjectEntries(p.obj, names)
    case Err(e) => Err(e)
    case Ok(d) =>
      if !p.hasDecisionSet then Err(NoAttribute("decision_set")) else
      var ids := DecisionSetOf(ctx.rows, ctx.nextId, p.obj.pk);
      DecisionSetOfSpec(ctx.rows, ctx.nextId, p.obj.pk);
      match DecisionsOutput(ctx.rows, ids)
      case Err(e) => Err(e)
      case Ok(ds) =>
        var withId := Put(d, "participant_id_in_session", Int(p.idInSession));
        Ok((Object(Put(withId, "decisions", List(ds))), c.(player := names)))
  }

  function PlayerStep(ctx: Context): Step<PlayerNode> {
    (p, c) => PlayerOutput(ctx, p, c)
  }

  /** A player's entry is written exactly when its field list exists, names
      only attributes of the player, and the player has a decision_set; a
      player of another app fails there once its own fields are read. */
  lemma PlayerEntryOk(ctx: Context, p: PlayerNode, c: Caches)
    ensures PlayerOutput(ctx, p, c).Ok? <==>
              var names := Refresh(c.player, p.obj.cls, ctx.bases);
              names.Some? && (forall k :: 0 <= k < |names.value| ==> names.value[k] in p.obj.attrs) &&
              p.hasDecisionSet
    ensures var names := Refresh(c.player, p.obj.cls, ctx.bases);
      names.Some? && (forall k :: 0 <= k < |names.value| ==> names.value[k] in p.obj.attrs) &&
      !p.hasDecisionSet ==>
        PlayerOutput(ctx, p, c) == Err(NoAttribute("decision_set"))
  {
    var names := Refresh(c.player, p.obj.cls, ctx.bases);
    var ids := DecisionSetOf(ctx.rows, ctx.nextId, p.obj.pk);
    DecisionSetOfSpec(ctx.rows, ctx.nextId, p.obj.pk);
    DecisionsOutputOk(ctx.rows, ids);
    if names.Some? {
      OdictFromOk(p.obj, names.value);
    }
  }

  /** The entry a successful player step writes, with the field list it used. */
  lemma PlayerOutputValue(ctx: Context, p: PlayerNode, c: Caches)
    requires PlayerOutput(ctx, p, c).Ok?
    ensures var names := Refresh(c.player, p.obj.cls, ctx.bases);
      var ids := DecisionSetOf(ctx.rows, ctx.nextId, p.obj.pk);
      names.Some? && OdictFrom(p.obj, names.value).Ok? && p.hasDecisionSet &&
      (forall k :: 0 <= k < |ids| ==> ids[k] in ctx.rows) &&
      PlayerOutput(ctx, p, c) ==
        Ok((Object(Put(Put(OdictFrom(p.obj, names.value).value, "participant_id_in_session", Int(p.idInSession)),
                       "decisions", List(DecisionsJson(ctx.rows, ids)))),
            c.(player := names)))
  {
    var ids := DecisionSetOf(ctx.rows, ctx.nextId, p.obj.pk);
    DecisionSetOfSpec(ctx.rows, ctx.nextId, p.obj.pk);
    DecisionsOutputOk(ctx.rows, ids);
  }

  /** A written player entry: the player's fields under its field list, each
      key once in first-listed order, then participant_id_in_session, then
      the player's decisions ordered by id; the player field list is
      remembered for the next player and no other list changes. */
  lemma PlayerEntry(ctx: Context, p: PlayerNode, c: Caches)
    requires PlayerOutput(ctx, p, c).Ok?
    ensures var names := Refresh(c.player, p.obj.cls, ctx.bases);
      Fixed(names) && PlayerOutput(ctx, p, c).value.1 == c.(player := names)
    ensures var names := Refresh(c.player, p.obj.cls, ctx.bases).value;
      var v := PlayerOutput(ctx, p, c).value.0;
      v.Object? &&
      ("participant_id_in_session" !in names && "decisions" !in names ==>
         Keys(v.entries) == Dedup(names) + ["participant_id_in_session", "decisions"]) &&
      (forall f :: f in names && f != "participant_id_in_session" && f != "decisions" ==>
         f in p.obj.attrs && Lookup(v.entries, f) == Some(p.obj.attrs[f])) &&
      Lookup(v.entries, "participant_id_in_session") == Some(Int(p.idInSession))
    ensures var ids := DecisionSetOf(ctx.rows, ctx.nextId, p.obj.pk);
      var v := PlayerOutput(ctx, p, c).value.0;
      v.Object? && (forall k :: 0 <= k < |ids| ==> ids[k] in ctx.rows) &&
      Lookup(v.entries, "decisions") == Some(List(DecisionsJson(ctx.rows, ids)))
  {
    PlayerOutputValue(ctx, p, c);
    var names := Refresh(c.player, p.obj.cls, ctx.bases).value;
    var ids := DecisionSetOf(ctx.rows, ctx.nextId, p.obj.pk);
    var d := OdictFrom(p.obj, names).value;
    OdictFromContents(p.obj, names);
    TwoPuts(d, "participant_id_in_session", Int(p.idInSession), "decisions", List(DecisionsJson(ctx.rows, ids)));
  }

  lemma PlayerStepKeeps(ctx: Context)
    ensures StepKeeps(PlayerStep(ctx))
  {
    forall p: PlayerNode, c | PlayerStep(ctx)(p, c).Ok?
      ensures Keeps(c, PlayerStep(ctx)(p, c).value.1)
    {
      PlayerEntry(ctx, p, c);
    }
  }

  /** A group's entry: its fields, then its players ordered by id_in_session. */
  function GroupOutput(ctx: Context, g: GroupNode, c: Caches): Result<(Value, Caches), ExportError> {
    var names := Refresh(c.group, g.obj.cls, ctx.bases);
    match ObjectEntries(g.obj, names)
    case Err(e) => Err(e)
    case Ok(d) =>
      match Fold(SortBy(g.players, PlayerKey), c.(group := names), PlayerStep(ctx))
      case Err(e) => Err(e)
      case Ok((vs, c1)) => Ok((Object(Put(d, "players", List(vs))), c1))
  }

  function GroupStep(ctx: Context): Step<GroupNode> {
    (g, c) => GroupOutput(ctx, g, c)
  }

  /** The entry a successful group step writes. */
  lemma GroupOutputValue(ctx: Context, g: GroupNode, c: Caches)
    requires GroupOutput(ctx, g, c).Ok?
    ensures var names := Refresh(c.group, g.obj.cls, ctx.bases);
      var kids := Fold(SortBy(g.players, PlayerKey), c.(group := names), PlayerStep(ctx));
      names.Some? && OdictFrom(g.obj, names.value).Ok? && kids.Ok? &&
      GroupOutput(ctx, g, c) ==
        Ok((Object(Put(OdictFrom(g.obj, names.value).value, "players", List(kids.value.0))), kids.value.1))
  {
  }

  /** A written group entry: its fields under its field list, each key once
      in first-listed order, then "players": one entry per player in
      ascending participant id_in_session order.  The group field list is the one looked up
      for the first group and is kept from then on; no fixed field list
      changes. */
  lemma GroupEntry(ctx: Context, g: GroupNode, c: Caches)
    requires GroupOutput(ctx, g, c).Ok?
    ensures var names := Refresh(c.group, g.obj.cls, ctx.bases);
      var c1 := GroupOutput(ctx, g, c).value.1;
      Fixed(names) && Keeps(c, c1) && c1.group == names
    ensures var names := Refresh(c.group, g.obj.cls, ctx.bases).value;
      var v := GroupOutput(ctx, g, c).value.0;
      v.Object? &&
      ("players" !in names ==> Keys(v.entries) == Dedup(names) + ["players"]) &&
      (forall f :: f in names && f != "players" ==>
         f in g.obj.attrs && Lookup(v.entries, f) == Some(g.obj.attrs[f]))
    ensures var names := Refresh(c.group, g.obj.cls, ctx.bases);
      var sorted := SortBy(g.players, PlayerKey);
      var kids := Fold(sorted, c.(group := names), PlayerStep(ctx));
      var v := GroupOutput(ctx, g, c).value.0;
      SortedBy(sorted, PlayerKey) && multiset(sorted) == multiset(g.players) &&
      kids.Ok? && v.Object? && Lookup(v.entries, "players") == Some(List(kids.value.0)) &&
      forall i :: 0 <= i < |sorted| ==>
        OutputOf(PlayerStep(ctx), sorted[i], FoldCaches(sorted[..i], c.(group := names), PlayerStep(ctx)), kids.value.0[i])
  {
    GroupOutputValue(ctx, g, c);
    var names := Refresh(c.group, g.obj.cls, ctx.bases);
    var sorted := SortBy(g.players, PlayerKey);
    SortBySpec(g.players, PlayerKey);
    PlayerStepKeeps(ctx);
    FoldFacts(sorted, c.(group := names), PlayerStep(ctx));
    OdictFromContents(g.obj, names.value);
    PutSpec(OdictFrom(g.obj, names.value).value, "players",
            List(Fold(sorted, c.(group := names), PlayerStep(ctx)).value.0));
  }

  /** A group is written only if every player of it has a decision_set: a
      session that also holds another app's players fails at the first of
      them. */
  lemma GroupPlayersHaveDecisionSets(ctx: Context, g: GroupNode, c: Caches)
    requires GroupOutput(ctx, g, c).Ok?
    ensures forall p :: p in g.players ==> p.hasDecisionSet
  {
    GroupEntry(ctx, g, c);
    var names := Refresh(c.group, g.obj.cls, ctx.bases);
    var sorted := SortBy(g.players, PlayerKey);
    forall p | p in g.players
      ensures p.hasDecisionSet
    {
      assert p in multiset(sorted);
      var i :| 0 <= i < |sorted| && sorted[i] == p;
      PlayerEntryOk(ctx, p, FoldCaches(sorted[..i], c.(group := names), PlayerStep(ctx)));
    }
  }

  /** Every player of a written group is written under the player field list
      the first of them used: the one inherited from earlier players if it
      was fixed, else the one looked up for the first player. */
  lemma GroupPlayersShareList(ctx: Context, g: GroupNode, c: Caches)
    requires GroupOutput(ctx, g, c).Ok? && g.players != []
    ensures var names := Refresh(c.group, g.obj.cls, ctx.bases);
      var sorted := SortBy(g.players, PlayerKey);
      |sorted| == |g.players| &&
      forall i :: 0 <= i < |sorted| ==>
        Refresh(FoldCaches(sorted[..i], c.(group := names), PlayerStep(ctx)).player, sorted[i].obj.cls, ctx.bases) ==
        Refresh(c.player, sorted[0].obj.cls, ctx.bases)
  {
    GroupOutputValue(ctx, g, c);
    var names := Refresh(c.group, g.obj.cls, ctx.bases);
    var c0 := c.(group := names);
    var sorted := SortBy(g.players, PlayerKey);
    assert sorted[..0] == [];
    PlayerEntry(ctx, sorted[0], c0);
    PlayerStepKeeps(ctx);
    FoldSharesList(sorted, c0, PlayerStep(ctx), PlayerList);
  }

  lemma GroupStepKeeps(ctx: Context)
    ensures StepKeeps(GroupStep(ctx))
  {
    forall g: GroupNode, c | GroupStep(ctx)(g, c).Ok?
      ensures Keeps(c, GroupStep(ctx)(g, c).value.1)
    {
      GroupEntry(ctx, g, c);
    }
  }

  /** A subsession's entry: its fields, then its groups ordered by id_in_subsession. */
  function SubsessionOutput(ctx: Context, s: SubsessionNode, c: Caches): Result<(Value, Caches), ExportError> {
    var names := Refresh(c.subsession, s.obj.cls, ctx.bases);
    match ObjectEntries(s.obj, names)
    case Err(e) => Err(e)
    case Ok(d) =>
      match Fold(SortBy(s.groups, GroupKey), c.(subsession := names), GroupStep(ctx))
      case Err(e) => Err(e)
      case Ok((vs, c1)) => Ok((Object(Put(d, "groups", List(vs))), c1))
  }

  function SubsessionStep(ctx: Context): Step<SubsessionNode> {
    (s, c) => SubsessionOutput(ctx, s, c)
  }

  /** The entry a successful subsession step writes. */
  lemma SubsessionOutputValue(ctx: Context, s: SubsessionNode, c: Caches)
    requires SubsessionOutput(ctx, s, c).Ok?
    ensures var names := Refresh(c.subsession, s.obj.cls, ctx.bases);
      var kids := Fold(SortBy(s.groups, GroupKey), c.(subsession := names), GroupStep(ctx));
      names.Some? && OdictFrom(s.obj, names.value).Ok? && kids.Ok? &&
      SubsessionOutput(ctx, s, c) ==
        Ok((Object(Put(OdictFrom(s.obj, names.value).value, "groups", List(kids.value.0))), kids.value.1))
  {
  }

  /** A written subsession entry: its fields under its field list, each key once
      in first-listed order, then "groups": one entry per group in
      ascending id_in_subsession order.  The subsession field list is the one looked up
      for the first subsession and is kept from then on; no fixed field list
      changes. */
  lemma SubsessionEntry(ctx: Context, s: SubsessionNode, c: Caches)
    requires SubsessionOutput(ctx, s, c).Ok?
    ensures var names := Refresh(c.subsession, s.obj.cls, ctx.bases);
      var c1 := SubsessionOutput(ctx, s, c).value.1;
      Fixed(names) && Keeps(c, c1) && c1.subsession == names
    ensures var names := Refresh(c.subsession, s.obj.cls, ctx.bases).value;
      var v := SubsessionOutput(ctx, s, c).value.0;
      v.Object? &&
      ("groups" !in names ==> Keys(v.entries) == Dedup(names) + ["groups"]) &&
      (forall f :: f in names && f != "groups" ==>
         f in s.obj.attrs && Lookup(v.entries, f) == Some(s.obj.attrs[f]))
    ensures var names := Refresh(c.subsession, s.obj.cls, ctx.bases);
      var sorted := SortBy(s.groups, GroupKey);
      var kids := Fold(sorted, c.(subsession := names), GroupStep(ctx));
      var v := SubsessionOutput(ctx, s, c).value.0;
      SortedBy(sorted, GroupKey) && multiset(sorted) == multiset(s.groups) &&
      kids.Ok? && v.Object? && Lookup(v.entries, "groups") == Some(List(kids.value.0)) &&
      forall i :: 0 <= i < |sorted| ==>
        OutputOf(GroupStep(ctx), sorted[i], FoldCaches(sorted[..i], c.(subsession := names), GroupStep(ctx)), kids.value.0[i])
  {
    SubsessionOutputValue(ctx, s, c);
    var names := Refresh(c.subsession, s.obj.cls, ctx.bases);
    var sorted := SortBy(s.groups, GroupKey);
    SortBySpec(s.groups, GroupKey);
    GroupStepKeeps(ctx);
    FoldFacts(sorted, c.(subsession := names), GroupStep(ctx));
    OdictFromContents(s.obj, names.value);
    PutSpec(OdictFrom(s.obj, names.value).value, "groups",
            List(Fold(sorted, c.(subsession := names), GroupStep(ctx)).value.0));
  }

  /** Every group of a written subsession is written under the group field list
      the first of them used: the one inherited from earlier groups if it
      was fixed, else the one looked up for the first group. */
  lemma SubsessionGroupsShareList(ctx: Context, s: SubsessionNode, c: Caches)
    requires SubsessionOutput(ctx, s, c).Ok? && s.groups != []
    ensures var names := Refresh(c.subsession, s.obj.cls, ctx.bases);
      var sorted := SortBy(s.groups, GroupKey);
      |sorted| == |s.groups| &&
      forall i :: 0 <= i < |sorted| ==>
        Refresh(FoldCaches(sorted[..i], c.(subsession := names), GroupStep(ctx)).group, sorted[i].obj.cls, ctx.bases) ==
        Refresh(c.group, sorted[0].obj.cls, ctx.bases)
  {
    SubsessionOutputValue(ctx, s, c);
    var names := Refresh(c.subsession, s.obj.cls, ctx.bases);
    var c0 := c.(subsession := names);
    var sorted := SortBy(s.groups, GroupKey);
    assert sorted[..0] == [];
    GroupEntry(ctx, sorted[0], c0);
    GroupStepKeeps(ctx);
    FoldSharesList(sorted, c0, GroupStep(ctx), GroupList);
  }

  lemma SubsessionStepKeeps(ctx: Context)
    ensures StepKeeps(SubsessionStep(ctx))
  {
    forall s: SubsessionNode, c | SubsessionStep(ctx)(s, c).Ok?
      ensures Keeps(c, SubsessionStep(ctx)(s, c).value.1)
    {
      SubsessionEntry(ctx, s, c);
    }
  }

  /** A session's entry: its fields, then its subsessions ordered by round_number. */
  function SessionOutput(ctx: Context, s: SessionNode, c: Caches): Result<(Value, Caches), ExportError> {
    var names := Refresh(c.session, s.obj.cls, ctx.bases);
    match ObjectEntries(s.obj, names)
    case Err(e) => Err(e)
    case Ok(d) =>
      match Fold(SortBy(s.subsessions, SubsessionKey), c.(session := names), SubsessionStep(ctx))
      case Err(e) => Err(e)
      case Ok((vs, c1)) => Ok((Object(Put(d, "subsessions", List(vs))), c1))
  }

  function SessionStep(ctx: Context): Step<SessionNode> {
    (s, c) => SessionOutput(ctx, s, c)
  }

  /** The entry a successful session step writes. */
  lemma SessionOutputValue(ctx: Context, s: SessionNode, c: Caches)
    requires SessionOutput(ctx, s, c).Ok?
    ensures var names := Refresh(c.session, s.obj.cls, ctx.bases);
      var kids := Fold(SortBy(s.subsessions, SubsessionKey), c.(session := names), SubsessionStep(ctx));
      names.Some? && OdictFrom(s.obj, names.value).Ok? && kids.Ok? &&
      SessionOutput(ctx, s, c) ==
        Ok((Object(Put(OdictFrom(s.obj, names.value).value, "subsessions", List(kids.value.0))), kids.value.1))
  {
  }

  /** A written session entry: its fields under its field list, each key once
      in first-listed order, then "subsessions": one entry per subsession in
      ascending round_number order.  The session field list is the one looked up
      for the first session and is kept from then on; no fixed field list
      changes. */
  lemma SessionEntry(ctx: Context, s: SessionNode, c: Caches)
    requires SessionOutput(ctx, s, c).Ok?
    ensures var names := Refresh(c.session, s.obj.cls, ctx.bases);
      var c1 := SessionOutput(ctx, s, c).value.1;
      Fixed(names) && Keeps(c, c1) && c1.session == names
    ensures var names := Refresh(c.session, s.obj.cls, ctx.bases).value;
      var v := SessionOutput(ctx, s, c).value.0;
      v.Object? &&
      ("subsessions" !in names ==> Keys(v.entries) == Dedup(names) + ["subsessions"]) &&
      (forall f :: f in names && f != "subsessions" ==>
         f in s.obj.attrs && Lookup(v.entries, f) == Some(s.obj.attrs[f]))
    ensures var names := Refresh(c.session, s.obj.cls, ctx.bases);
      var sorted := SortBy(s.subsessions, SubsessionKey);
      var kids := Fold(sorted, c.(session := names), SubsessionStep(ctx));
      var v := SessionOutput(ctx, s, c).value.0;
      SortedBy(sorted, SubsessionKey) && multiset(sorted) == multiset(s.subsessions) &&
      kids.Ok? && v.Object? && Lookup(v.entries, "subsessions") == Some(List(kids.value.0)) &&
      forall i :: 0 <= i < |sorted| ==>
        OutputOf(SubsessionStep(ctx), sorted[i], FoldCaches(sorted[..i], c.(session := names), SubsessionStep(ctx)), kids.value.0[i])
  {
    SessionOutputValue(ctx, s, c);
    var names := Refresh(c.session, s.obj.cls, ctx.bases);
    var sorted := SortBy(s.subsessions, SubsessionKey);
    SortBySpec(s.subsessions, SubsessionKey);
    SubsessionStepKeeps(ctx);
    FoldFacts(sorted, c.(session := names), SubsessionStep(ctx));
    OdictFromContents(s.obj, names.value);
    PutSpec(OdictFrom(s.obj, names.value).value, "subsessions",
            List(Fold(sorted, c.(session := names), SubsessionStep(ctx)).value.0));
  }

  /** Every subsession of a written session is written under the subsession field list
      the first of them used: the one inherited from earlier subsessions if it
      was fixed, else the one looked up for the first subsession. */
  lemma SessionSubsessionsShareList(ctx: Context, s: SessionNode, c: Caches)
    requires SessionOutput(ctx, s, c).Ok? && s.subsessions != []
    ensures var names := Refresh(c.session, s.obj.cls, ctx.bases);
      var sorted := SortBy(s.subsessions, SubsessionKey);
      |sorted| == |s.subsessions| &&
      forall i :: 0 <= i < |sorted| ==>
        Refresh(FoldCaches(sorted[..i], c.(session := names), SubsessionStep(ctx)).subsession, sorted[i].obj.cls, ctx.bases) ==
        Refresh(c.subsession, sorted[0].obj.cls, ctx.bases)
  {
    SessionOutputValue(ctx, s, c);
    var names := Refresh(c.session, s.obj.cls, ctx.bases);
    var c0 := c.(session := names);
    var sorted := SortBy(s.subsessions, SubsessionKey);
    assert sorted[..0] == [];
    SubsessionEntry(ctx, sorted[0], c0);
    SubsessionStepKeeps(ctx);
    FoldSharesList(sorted, c0, SubsessionStep(ctx), SubsessionList);
  }

  lemma SessionStepKeeps(ctx: Context)
    ensures StepKeeps(SessionStep(ctx))
  {
    forall s: SessionNode, c | SessionStep(ctx)(s, c).Ok?
      ensures Keeps(c, SessionStep(ctx)(s, c).value.1)
    {
      SessionEntry(ctx, s, c);
    }
  }

  function SessionPks(ss: seq<SessionNode>): set<nat> {
    set s | s in ss :: s.obj.pk
  }

  /** `set(...)` of the players' sessions: one session per primary key, the
      first one met kept. */
  function DistinctSessions(ss: seq<SessionNode>): (r: seq<SessionNode>)
    ensures SessionPks(r) == SessionPks(ss)
    ensures forall i, j :: 0 <= i < j < |r| ==> r[i].obj.pk != r[j].obj.pk
    ensures forall s :: s in r ==> s in ss
    decreases |ss|
  {
    if ss == [] then []
    else
      var prefix := ss[..|ss| - 1];
      var last := ss[|ss| - 1];
      var d := DistinctSessions(prefix);
      assert ss == prefix + [last];
      assert SessionPks(ss) == SessionPks(prefix) + {last.obj.pk};
      if last.obj.pk in SessionPks(d) then d
      else
        assert SessionPks(d + [last]) == SessionPks(d) + {last.obj.pk};
        d + [last]
  }

  /** The sessions the export walks: those of all players, once each, by label. */
  function OrderedSessions(playerSessions: seq<SessionNode>): seq<SessionNode> {
    SortBy(DistinctSessions(playerSessions), SessionKey)
  }

  /** No primary key appears twice. */
  predicate DistinctPks(ss: seq<SessionNode>) {
    forall i, j :: 0 <= i < j < |ss| ==> ss[i].obj.pk != ss[j].obj.pk
  }

  lemma {:induction false} CountAtMostOne(d: seq<SessionNode>, x: SessionNode)
    requires DistinctPks(d)
    ensures multiset(d)[x] <= 1
    decreases |d|
  {
    if d != [] {
      var prefix := d[..|d| - 1];
      assert d == prefix + [d[|d| - 1]];
      CountAtMostOne(prefix, x);
    }
  }

  lemma CountTwo(r: seq<SessionNode>, i: nat, j: nat)
    requires i < j < |r| && r[i] == r[j]
    ensures multiset(r)[r[i]] >= 2
  {
    assert r == r[..j] + r[j..];
    assert r[i] in r[..j] && r[j] == r[j..][0];
  }

  /** Reordering a list with distinct primary keys keeps them distinct. */
  lemma DistinctPksPermutation(d: seq<SessionNode>, r: seq<SessionNode>)
    requires DistinctPks(d) && multiset(r) == multiset(d)
    ensures DistinctPks(r)
  {
    forall i, j | 0 <= i < j < |r|
      ensures r[i].obj.pk != r[j].obj.pk
    {
      if r[i].obj.pk == r[j].obj.pk {
        assert r[i] in multiset(d) && r[j] in multiset(d);
        var a :| 0 <= a < |d| && d[a] == r[i];
        var b :| 0 <= b < |d| && d[b] == r[j];
        assert a == b;
        CountTwo(r, i, j);
        CountAtMostOne(d, r[i]);
        assert false;
      }
    }
  }

  /** The export lists every session some player belongs to exactly once,
      and in ascending label order. */
  lemma OrderedSessionsSpec(playerSessions: seq<SessionNode>)
    ensures SortedBy(OrderedSessions(playerSessions), SessionKey)
    ensures forall i :: 0 <= i < |OrderedSessions(playerSessions)| - 1 ==>
              StrLe(OrderedSessions(playerSessions)[i].sessionLabel, OrderedSessions(playerSessions)[i + 1].sessionLabel)
    ensures SessionPks(OrderedSessions(playerSessions)) == SessionPks(playerSessions)
    ensures DistinctPks(OrderedSessions(playerSessions))
    ensures forall s :: s in OrderedSessions(playerSessions) ==> s in playerSessions
  {
    var d := DistinctSessions(playerSessions);
    var r := OrderedSessions(playerSessions);
    SortBySpec(d, SessionKey);
    DistinctPksPermutation(d, r);
    assert forall s :: s in r <==> s in d by {
      forall s ensures s in r <==> s in d {
        assert s in r <==> s in multiset(r);
      }
    }
    assert SessionPks(r) == SessionPks(d);
  }

  /** export_view_json's result: the list of session entries. */
  function ExportOutput(ctx: Context, playerSessions: seq<SessionNode>): Result<seq<Value>, ExportError> {
    match Fold(OrderedSessions(playerSessions), NoCaches, SessionStep(ctx))
    case Err(e) => Err(e)
    case Ok((vs, _)) => Ok(vs)
  }

  /** A successful export writes one entry per session of OrderedSessions,
      the i-th from the field lists the sessions before it left; every session
      is written under the session field list looked up for the first one. */
  lemma ExportEntries(ctx: Context, playerSessions: seq<SessionNode>)
    requires ExportOutput(ctx, playerSessions).Ok?
    ensures var sessions := OrderedSessions(playerSessions);
      var r := ExportOutput(ctx, playerSessions).value;
      |r| == |sessions| &&
      forall i :: 0 <= i < |sessions| ==>
        OutputOf(SessionStep(ctx), sessions[i], FoldCaches(sessions[..i], NoCaches, SessionStep(ctx)), r[i])
    ensures var sessions := OrderedSessions(playerSessions);
      forall i :: 0 <= i < |sessions| ==>
        Refresh(FoldCaches(sessions[..i], NoCaches, SessionStep(ctx)).session, sessions[i].obj.cls, ctx.bases) ==
        GetFieldNamesForCsv(sessions[0].obj.cls, ctx.bases)
  {
    var sessions := OrderedSessions(playerSessions);
    FoldFacts(sessions, NoCaches, SessionStep(ctx));
    if sessions != [] {
      assert sessions[..0] == [];
      SessionEntry(ctx, sessions[0], NoCaches);
      SessionStepKeeps(ctx);
      FoldSharesList(sessions, NoCaches, SessionStep(ctx), SessionList);
    }
  }

  // ---------------------------------------------------------------------------
  // The export as the source runs it: nested loops appending to lists
  // ---------------------------------------------------------------------------

  method ExportPlayer(ctx: Context, p: PlayerNode, c: Caches) returns (r: Result<(Value, Caches), ExportError>)
    ensures r == PlayerOutput(ctx, p, c)
  {
    var names := Refresh(c.player, p.obj.cls, ctx.bases);
    var entries := CreateOdictFromObject(p.obj, names);
    if entries.Err? {
      return Err(entries.error);
    }
    var pOutput := Put(entries.value, "participant_id_in_session", Int(p.idInSession));
    if !p.hasDecisionSet {
      return Err(NoAttribute("decision_set"));
    }
    var ids := DecisionSetOf(ctx.rows, ctx.nextId, p.obj.pk);  // p.decision_set.order_by('id')
    DecisionSetOfSpec(ctx.rows, ctx.nextId, p.obj.pk);
    var decisions: seq<Value> := [];
    assert ids[0..] == ids;
    for i := 0 to |ids|
      invariant DecisionsOutput(ctx.rows, ids) == Prepend(decisions, DecisionsOutput(ctx.rows, ids[i..]))
    {
      DecisionsAdvance(ctx.rows, ids, i, decisions);
      var dec := CreateOdictFromObject(DecisionObj(ids[i], ctx.rows[ids[i]]), Some(DecisionFieldNames));
      if dec.Err? {
        return Err(dec.error);
      }
      decisions := decisions + [Object(dec.value)];
    }
    assert ids[|ids|..] == [] && decisions + [] == decisions;
    r := Ok((Object(Put(pOutput, "decisions", List(decisions))), c.(player := names)));
  }

  method ExportGroup(ctx: Context, g: GroupNode, c: Caches) returns (r: Result<(Value, Caches), ExportError>)
    ensures r == GroupOutput(ctx, g, c)
  {
    var names := Refresh(c.group, g.obj.cls, ctx.bases);
    var entries := CreateOdictFromObject(g.obj, names);
    if entries.Err? {
      return Err(entries.error);
    }
    var players := SortBy(g.players, PlayerKey);
    var caches := c.(group := names);
    var out: seq<Value> := [];
    assert players[0..] == players;
    for i := 0 to |players|
      invariant Fold(players, c.(group := names), PlayerStep(ctx)) ==
                  Then(out, Fold(players[i..], caches, PlayerStep(ctx)))
    {
      FoldAdvance(players, i, out, caches, PlayerStep(ctx));
      var res := ExportPlayer(ctx, players[i], caches);
      if res.Err? {
        return Err(res.error);
      }
      out := out + [res.value.0];
      caches := res.value.1;
    }
    assert players[|players|..] == [] && out + [] == out;
    r := Ok((Object(Put(entries.value, "players", List(out))), caches));
  }

  method ExportSubsession(ctx: Context, s: SubsessionNode, c: Caches) returns (r: Result<(Value, Caches), ExportError>)
    ensures r == SubsessionOutput(ctx, s, c)
  {
    var names := Refresh(c.subsession, s.obj.cls, ctx.bases);
    var entries := CreateOdictFromObject(s.obj, names);
    if entries.Err? {
      return Err(entries.error);
    }
    var groups := SortBy(s.groups, GroupKey);
    var caches := c.(subsession := names);
    var out: seq<Value> := [];
    assert groups[0..] == groups;
    for i := 0 to |groups|
      invariant Fold(groups, c.(subsession := names), GroupStep(ctx)) ==
                  Then(out, Fold(groups[i..], caches, GroupStep(ctx)))
    {
      FoldAdvance(groups, i, out, caches, GroupStep(ctx));
      var res := ExportGroup(ctx, groups[i], caches);
      if res.Err? {
        return Err(res.error);
      }
      out := out + [res.value.0];
      caches := res.value.1;
    }
    assert groups[|groups|..] == [] && out + [] == out;
    r := Ok((Object(Put(entries.value, "groups", List(out))), caches));
  }

  method ExportSession(ctx: Context, s: SessionNode, c: Caches) returns (r: Result<(Value, Caches), ExportError>)
    ensures r == SessionOutput(ctx, s, c)
  {
    var names := Refresh(c.session, s.obj.cls, ctx.bases);
    var entries := CreateOdictFromObject(s.obj, names);
    if entries.Err? {
      return Err(entries.error);
    }
    var subsessions := SortBy(s.subsessions, SubsessionKey);
    var caches := c.(session := names);
    var out: seq<Value> := [];
    assert subsessions[0..] == subsessions;
    for i := 0 to |subsessions|
      invariant Fold(subsessions, c.(session := names), SubsessionStep(ctx)) ==
                  Then(out, Fold(subsessions[i..], caches, SubsessionStep(ctx)))
    {
      FoldAdvance(subsessions, i, out, caches, SubsessionStep(ctx));
      var res := ExportSubsession(ctx, subsessions[i], caches);
      if res.Err? {
        return Err(res.error);
      }
      out := out + [res.value.0];
      caches := res.value.1;
    }
    assert subsessions[|subsessions|..] == [] && out + [] == out;
    r := Ok((Object(Put(entries.value, "subsessions", List(out))), caches));
  }

  /** export_view_json: the sessions of all players, each once, by label. */
  method ExportViewJson(ctx: Context, playerSessions: seq<SessionNode>) returns (r: Result<seq<Value>, ExportError>)
    ensures r == ExportOutput(ctx, playerSessions)
  {
    var sessions := OrderedSessions(playerSessions);
    var caches := NoCaches;
    var output: seq<Value> := [];
    assert sessions[0..] == sessions;
    for i := 0 to |sessions|
      invariant Fold(sessions, NoCaches, SessionStep(ctx)) == Then(output, Fold(sessions[i..], caches, SessionStep(ctx)))
    {
      FoldAdvance(sessions, i, output, caches, SessionStep(ctx));
      var res := ExportSession(ctx, sessions[i], caches);
      if res.Err? {
        return Err(res.error);
      }
      output := output + [res.value.0];
      caches := res.value.1;
    }
    assert sessions[|sessions|..] == [] && output + [] == output;
    r := Ok(output);
  }
}
