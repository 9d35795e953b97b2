/** Which attribute names the export writes for each kind of framework object
    (example_decisions/utils.py).  A Django model is described by its kind and
    its declared columns; the framework's base classes BasePlayer and BaseGroup
    are not part of this repository, so their columns are a parameter. */
module Utils {
  import opened Common

  /** A declared column of a model: its name and whether it is a BinaryField. */
  datatype Field = Field(name: string, isBinary: bool)

  /** The branch of _get_table_fields a model falls into: the framework's
      Session or Participant class itself, or a subclass of BasePlayer,
      BaseGroup or BaseSubsession, or anything else. */
  datatype Kind = SessionModel | ParticipantModel | PlayerModel | GroupModel | SubsessionModel | OtherModel

  datatype ModelClass = ModelClass(kind: Kind, fields: seq<Field>)

  /** The declared columns of the framework's BasePlayer and BaseGroup. */
  datatype Bases = Bases(basePlayer: seq<Field>, baseGroup: seq<Field>)

  /** The name of every declared column, in declaration order. */
  function Names(fields: seq<Field>): (r: seq<string>)
    ensures |r| == |fields| && forall k :: 0 <= k < |r| ==> r[k] == fields[k].name
  {
    if fields == [] then [] else [fields[0].name] + Names(fields[1..])
  }

  /** A name of a column of `fields` that is not binary. */
  predicate IsPlainColumn(fields: seq<Field>, x: string) {
    exists k :: 0 <= k < |fields| && fields[k].name == x && !fields[k].isBinary
  }

  /** inspect_field_names: the column names in declaration order, binary columns left out. */
  function InspectFieldNames(fields: seq<Field>): (r: seq<string>)
    ensures forall x :: x in r <==> IsPlainColumn(fields, x)
    ensures IsSubsequence(r, Names(fields))
    ensures (forall k :: 0 <= k < |fields| ==> !fields[k].isBinary) ==> r == Names(fields)
    decreases |fields|
  {
    if fields == [] then []
    else
      var rest := InspectFieldNames(fields[1..]);
      assert Names(fields) == [fields[0].name] + Names(fields[1..]);
      assert forall x :: IsPlainColumn(fields, x) <==>
          (x == fields[0].name && !fields[0].isBinary) || IsPlainColumn(fields[1..], x) by {
        forall x ensures IsPlainColumn(fields, x) ==>
            (x == fields[0].name && !fields[0].isBinary) || IsPlainColumn(fields[1..], x) {
          if IsPlainColumn(fields, x) {
            var k :| 0 <= k < |fields| && fields[k].name == x && !fields[k].isBinary;
            if k > 0 { assert fields[1..][k - 1] == fields[k]; }
          }
        }
        forall x | IsPlainColumn(fields[1..], x) ensures IsPlainColumn(fields, x) {
          var k :| 0 <= k < |fields[1..]| && fields[1..][k].name == x && !fields[1..][k].isBinary;
          assert fields[k + 1] == fields[1..][k];
        }
      }
      if fields[0].isBinary then
        SubsequenceSkip(rest, fields[0].name, Names(fields[1..]));
        rest
      else [fields[0].name] + rest
  }

  /** `[f for f in names if f not in excluded]`. */
  function ExcludeNames(names: seq<string>, excluded: seq<string>): (r: seq<string>)
    ensures forall x :: x in r <==> x in names && x !in excluded
    ensures IsSubsequence(r, names)
    decreases |names|
  {
    if names == [] then []
    else
      var rest := ExcludeNames(names[1..], excluded);
      assert forall x :: x in names <==> x == names[0] || x in names[1..];
      if names[0] in excluded then
        SubsequenceSkip(rest, names[0], names[1..]);
        rest
      else
        [names[0]] + rest
  }

  const SessionFieldNames: seq<string> := [
    "code", "label", "experimenter_name", "time_scheduled", "time_started",
    "mturk_HITId", "mturk_HITGroupId", "comment", "is_demo"
  ]

  const ParticipantExportFieldNames: seq<string> := [
    "id_in_session", "code", "label", "_is_bot", "_index_in_pages", "_max_page_index",
    "_current_app_name", "_round_number", "_current_page_name", "ip_address",
    "time_started", "exclude_from_data_analysis", "visited", "mturk_worker_id",
    "mturk_assignment_id"
  ]

  const ParticipantLiveFieldNames: seq<string> := [
    "_id_in_session", "code", "label", "_current_page", "_current_app_name",
    "_round_number", "_current_page_name", "status", "_last_page_timestamp"
  ]

  /** The subclass's own columns for the Player branch. */
  function PlayerOwnFields(cls: ModelClass, bases: Bases): seq<string> {
    ExcludeNames(InspectFieldNames(cls.fields),
                 InspectFieldNames(bases.basePlayer) + ["id", "group", "subsession"])
  }

  /** The subclass's own columns for the Group branch. */
  function GroupOwnFields(cls: ModelClass, bases: Bases): seq<string> {
    ExcludeNames(InspectFieldNames(cls.fields), InspectFieldNames(bases.baseGroup) + ["id", "subsession"])
  }

  /** The subclass's own columns for the Subsession branch: as written, the
      columns of BaseGroup (not BaseSubsession) are the ones taken away. */
  function SubsessionOwnFields(cls: ModelClass, bases: Bases): seq<string> {
    ExcludeNames(InspectFieldNames(cls.fields), InspectFieldNames(bases.baseGroup) + ["id"])
  }

  /** _get_table_fields: the branches are tried in the order Session,
      Participant, Player, Group, Subsession; any other model gets no list. */
  function TableFields(cls: ModelClass, bases: Bases, forExport: bool): (r: Option<seq<string>>)
    ensures r.None? <==> cls.kind == OtherModel
    ensures r.Some? ==> r.value != []
  {
    match cls.kind
    case SessionModel => Some(SessionFieldNames)
    case ParticipantModel =>
      Some(if forExport then ParticipantExportFieldNames else ParticipantLiveFieldNames)
    case PlayerModel =>
      var own := PlayerOwnFields(cls, bases);
      Some(if forExport then ["id_in_group"] + own + ["payoff"] else ["id_in_group", "role"] + own + ["payoff"])
    case GroupModel => Some(["id_in_subsession"] + GroupOwnFields(cls, bases))
    case SubsessionModel => Some(["round_number"] + SubsessionOwnFields(cls, bases))
    case OtherModel => None
  }

  /** get_field_names_for_csv: always the export variant. */
  function GetFieldNamesForCsv(cls: ModelClass, bases: Bases): (r: Option<seq<string>>)
    ensures r.None? <==> cls.kind == OtherModel
    ensures r.Some? ==> r.value != []
  {
    TableFields(cls, bases, true)
  }

  /** Session's list is the fixed nine names whichever variant is asked for;
      Participant's variant picks between two fixed lists. */
  lemma FixedLists(cls: ModelClass, bases: Bases, forExport: bool)
    ensures cls.kind == SessionModel ==>
              TableFields(cls, bases, forExport) == Some(SessionFieldNames) &&
              |SessionFieldNames| == 9
    ensures cls.kind == ParticipantModel ==>
              TableFields(cls, bases, forExport) ==
                Some(if forExport then ParticipantExportFieldNames else ParticipantLiveFieldNames) &&
              |ParticipantExportFieldNames| == 15 && |ParticipantLiveFieldNames| == 9
  {
  }

  /** The Player branch: 'id_in_group' first and 'payoff' last, and in between,
      in declaration order, exactly the subclass's non-binary columns that are
      neither BasePlayer's non-binary columns nor 'id', 'group' or 'subsession'.
      The non-export variant only adds 'role' right after 'id_in_group'. */
  lemma PlayerFields(cls: ModelClass, bases: Bases)
    requires cls.kind == PlayerModel
    ensures TableFields(cls, bases, true).Some?
    ensures var r := TableFields(cls, bases, true).value;
      |r| >= 2 && r[0] == "id_in_group" && r[|r| - 1] == "payoff" &&
      IsSubsequence(r[1..|r| - 1], Names(cls.fields)) &&
      forall x :: x in r[1..|r| - 1] <==>
        IsPlainColumn(cls.fields, x) && !IsPlainColumn(bases.basePlayer, x) &&
        x != "id" && x != "group" && x != "subsession"
    ensures var r := TableFields(cls, bases, true).value;
      TableFields(cls, bases, false) == Some([r[0], "role"] + r[1..])
  {
    var own := PlayerOwnFields(cls, bases);
    var r := ["id_in_group"] + own + ["payoff"];
    assert r[1..|r| - 1] == own;
    SubsequenceTrans(own, InspectFieldNames(cls.fields), Names(cls.fields));
    assert [r[0], "role"] + r[1..] == ["id_in_group", "role"] + own + ["payoff"];
  }

  /** The Group branch: 'id_in_subsession' first, then the subclass's own
      non-binary columns other than BaseGroup's, 'id' and 'subsession'. */
  lemma GroupFields(cls: ModelClass, bases: Bases)
    requires cls.kind == GroupModel
    ensures TableFields(cls, bases, true).Some?
    ensures var r := TableFields(cls, bases, true).value;
      |r| >= 1 && r[0] == "id_in_subsession" &&
      IsSubsequence(r[1..], Names(cls.fields)) &&
      forall x :: x in r[1..] <==>
        IsPlainColumn(cls.fields, x) && !IsPlainColumn(bases.baseGroup, x) &&
        x != "id" && x != "subsession"
    ensures TableFields(cls, bases, false) == TableFields(cls, bases, true)
  {
    var own := GroupOwnFields(cls, bases);
    assert (["id_in_subsession"] + own)[1..] == own;
    SubsequenceTrans(own, InspectFieldNames(cls.fields), Names(cls.fields));
  }

  /** The Subsession branch: 'round_number' first, then the subclass's
      non-binary columns other than BaseGroup's and 'id'. */
  lemma SubsessionFields(cls: ModelClass, bases: Bases)
    requires cls.kind == SubsessionModel
    ensures TableFields(cls, bases, true).Some?
    ensures var r := TableFields(cls, bases, true).value;
      |r| >= 1 && r[0] == "round_number" &&
      IsSubsequence(r[1..], Names(cls.fields)) &&
      forall x :: x in r[1..] <==>
        IsPlainColumn(cls.fields, x) && !IsPlainColumn(bases.baseGroup, x) && x != "id"
    ensures TableFields(cls, bases, false) == TableFields(cls, bases, true)
  {
    var own := SubsessionOwnFields(cls, bases);
    assert (["round_number"] + own)[1..] == own;
    SubsequenceTrans(own, InspectFieldNames(cls.fields), Names(cls.fields));
  }
}
