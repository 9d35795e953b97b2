# example_decisions in Dafny

This project models the oTree app `example_decisions`. In that app each player
works through a fixed number of Decision records per round. The project covers
four parts of the app:

- **Stub generation.** At the start of each round, every player of the round's
  subsession gets `num_decisions_per_round` (5) new Decision rows. Each row
  holds a random value between 1 and 10.
- **The decision page.**
  - Before rendering, the page checks that the player has exactly 5 decisions.
  - After submission, it reads the flat form dictionary (`form-<i>-id`,
    `form-<i>-player_decision`, `form-<i>-reason`). It writes each form's
    answers onto the decision that form names, saving each one as it goes.
- **The JSON export.** It walks sessions, subsessions, groups, players and
  decisions. Each level is sorted by its own key. Each object becomes an
  ordered dictionary of the attributes its field list names. Each kind's field
  list is looked up at the first object of that kind and reused while it is
  non-empty.
- **Field-list selection.** Which column names are exported for each kind of
  framework model: the Session, the Participant, and subclasses of Player,
  Group and Subsession.

The database is modelled in memory.

- **The Decision table** is a class, `Models.DecisionTable`. It has a map from
  primary key to row and the next key to hand out. `save()` writes nothing
  beyond that map.
- **Random draw.** `random.randint(1, 10)` is an arbitrary choice of a value
  in [1, 10].
- **Framework objects read by the export** are values: `Export.Obj` and the
  `*Node` records. Each has its primary key, its model class and its
  attribute map.
- **OrderedDict** is a list of (key, value) pairs. Its insertion semantics
  are `Export.Put`.

Files:

| file | module | contents |
|---|---|---|
| `common.dfy` | `Common` | Option and Result; `'%d'` and `int()`; subsequences; order-preserving de-duplication; Python's string order and `sorted` |
| `utils.dfy` | `Utils` | `inspect_field_names`, `_get_table_fields`, `get_field_names_for_csv` |
| `models.dfy` | `Models` | constants, the Decision record, the Decision table, `generate_decision_stubs`, `before_session_starts` |
| `page.dfy` | `DecisionPage` | `vars_for_template`, and `before_next_page` with a specification and an independent description of its outcome |
| `export.dfy` | `Export` | `create_odict_from_object` and `export_view_json`: specified level by level, then run as nested loops proved equal to the specification |

## Model

| member | source | states |
|---|---|---|
| Models.DecisionSetOfSpec | example_decisions/views.py:126 | A player's decision set lists exactly the existing rows that player owns. Each is listed once, in ascending id order. |
| Models.DecisionSetOfFrame | example_decisions/models.py:59 | A player's decision set depends only on which rows exist and who owns them. |
| Models.DecisionSetOfAppend | example_decisions/models.py:43 | A row created under the next free key joins its owner's decision set at the end. No other player's set changes. |
| Models.DecisionTable.Create | example_decisions/models.py:43-45 | `decision_set.create()`, then setting the value and saving. This adds one new row under the next key, owned by the player, with nothing answered. The table's key invariant is kept. |
| Models.GenerateDecisionStubs | example_decisions/models.py:37-45 | The table gains exactly 5 new keys. Each new row is owned by the player, has a value in [1, 10] and is unanswered. Old rows are unchanged. The player's decision set grows by exactly the 5 new ids; every other player's set is unchanged. A second call adds a second batch. |
| Models.BeforeSessionStarts | example_decisions/models.py:26-29 | Every player gains 5 decisions per time it is listed, and its old decisions stay as a prefix. Old rows are unchanged, and no row appears below the old next key. Every new row is a stub owned by a listed player. Every decision a player gains past its old prefix is a new stub of that player, with a value in [1, 10]. |
| DecisionPage.VarsForTemplate | example_decisions/views.py:16-26 | Rendering succeeds exactly when the player has 5 decisions, and otherwise fails with that count. On success it lists the player's decision set in order, each id paired with its row's value. |
| DecisionPage.DecodeDecision | example_decisions/views.py:47-50 | A blank answer is null. "True" is yes. Any other non-blank string is no. |
| DecisionPage.DecodeReason | example_decisions/views.py:52-55 | A blank reason is null. Any other string is stored verbatim and is not checked against the declared codes. |
| DecisionPage.Answer | example_decisions/views.py:45-58 | Writing a form onto a decision changes only player_decision and reason. The value and the owner stay the same. |
| DecisionPage.RunFromOutcome | example_decisions/views.py:36-58 | The loop stops at the first form that goes wrong and reports that form's problem. Each decision ends with the answers of the last earlier form naming it; if none names it, it is unchanged. No row appears or disappears. |
| DecisionPage.SubmitOutcome | example_decisions/views.py:28-58 | With a count other than 5, nothing is written and the count is reported. Otherwise the outcome is as in RunFromOutcome, starting from form 0. Writes made before a failure stay written. |
| DecisionPage.ReachAll | example_decisions/views.py:36-45 | The loop runs to the end exactly when no form goes wrong. |
| DecisionPage.SubmitSucceedsIff | example_decisions/views.py:33-45 | A submission succeeds exactly when both hold. The player has 5 decisions. Every form has its three keys, an id that `int()` accepts, and an id that is one of the player's decisions. |
| DecisionPage.SubmitKeepsValuesAndOwners | example_decisions/views.py:47-58 | Whatever the form holds, no value or owner changes, the set of rows is the same, and so is every player's decision set. |
| DecisionPage.SubmitLastWins | example_decisions/views.py:36-58 | On success, a decision named by several forms holds the answers of the last of them. A decision named by no form is unchanged. |
| DecisionPage.BeforeNextPage | example_decisions/views.py:28-58 | The handler's loop over the table leaves the rows and the error that Submit specifies. It hands out no new keys. |
| DecisionPage.SubmitKeepsDeclaredReasons | example_decisions/views.py:52-55 | If the table holds only blank or declared reason codes (models.py:49-53), and every form read sends a blank or declared code, then afterwards every stored reason is still blank or declared. |
| DecisionPage.SubmitStoresAnyReason | example_decisions/views.py:52-55 | On success, the last form naming a decision stores its non-blank reason exactly as sent. So a code outside the declared ones ends up in the table. |
| DecisionPage.RoundStartThenRender | example_decisions/models.py:26-29 | A player listed once by the round-start hook, with no decisions yet (as for a new round's player), has a page that renders afterwards: the count check at views.py:18-19 passes. The table stays valid. |
| DecisionPage.SubmitKeepsPageRenderable | example_decisions/views.py:33-34 | A player whose page renders before a submission still renders after it, whatever the form holds. |
| Common.ParseInt | example_decisions/views.py:40 | `int()` succeeds exactly on an optional sign followed by one or more decimal digits. |
| Common.ParseIntOfNatToString | example_decisions/views.py:37-40 | A key written with `'%d'` parses back to itself. |
| Common.Dedup | example_decisions/views.py:72-74 | The distinct names, each once, with nothing added, as a subsequence of the names. |
| Common.DedupFirstOccurrence | example_decisions/views.py:72-74 | Each name sits at the place of its first occurrence. Whenever a later name of the result occurs at some position of the input, every earlier name of the result already occurs before that position. |
| Common.SortBySpec | example_decisions/views.py:102 | `sorted(..., key=...)` returns a permutation of its input in ascending key order. |
| Utils.InspectFieldNames | example_decisions/utils.py:15-22 | The column names in declaration order, with exactly the binary columns left out. |
| Utils.ExcludeNames | example_decisions/utils.py:77-81 | The names not excluded, in their order, and only those. |
| Utils.TableFields | example_decisions/utils.py:29-104 | A list exists exactly for Session, Participant and subclasses of Player, Group and Subsession. Every such list is non-empty. |
| Utils.GetFieldNamesForCsv | example_decisions/utils.py:25-26 | The export variant: a non-empty list exactly for the five known kinds. |
| Utils.FixedLists | example_decisions/utils.py:30-74 | Session gives the fixed 9 names for both variants. Participant gives the fixed 15-name list for export and the 9-name list otherwise. |
| Utils.PlayerFields | example_decisions/utils.py:76-86 | 'id_in_group' comes first and 'payoff' last. In between, in declaration order, come exactly the subclass's non-binary columns that are not BasePlayer's and not id, group or subsession. The other variant only inserts 'role' second. |
| Utils.GroupFields | example_decisions/utils.py:88-95 | 'id_in_subsession', then exactly the subclass's non-binary columns that are not BaseGroup's and not id or subsession. Both variants agree. |
| Utils.SubsessionFields | example_decisions/utils.py:97-104 | 'round_number', then exactly the subclass's non-binary columns that are not BaseGroup's (as written) and not id. Both variants agree. |
| Export.PutSpec | example_decisions/views.py:74 | `d[key] = v`: an existing key keeps its place, a new key goes last, the key holds v, and every other key keeps its value. |
| Export.TwoPuts | example_decisions/views.py:122-123 | Two new keys set after a dictionary's own keys come last, in order; all other keys keep their values. |
| Export.OdictFromOk | example_decisions/views.py:67-76 | create_odict_from_object succeeds exactly when every listed name is an attribute. |
| Export.OdictFromContents | example_decisions/views.py:72-76 | On success there is one key per distinct name, in first-listed order, and each holds that attribute. |
| Export.OdictFromError | example_decisions/views.py:73-74 | On failure the error names the first listed name that is not an attribute. |
| Export.CreateOdictFromObject | example_decisions/views.py:67-76 | The loop builds the dictionary the specification describes. A None field list is an error. |
| Export.Refresh | example_decisions/views.py:97 | `cached or lookup`: a non-empty cached list is kept; otherwise the list is looked up. |
| Export.FoldFacts | example_decisions/views.py:96-137 | A sibling loop that succeeds writes one entry per sibling. The i-th entry is what the step writes for the i-th sibling, starting from exactly the field lists the first i siblings left. Every prefix of the loop keeps the fixed field lists its steps keep. |
| Export.FoldSharesList | example_decisions/views.py:97-118 | Once the first sibling leaves a kind's field list fixed, every later sibling finds that same list. |
| Export.DecisionEntry | example_decisions/views.py:127-129 | A decision's entry never fails. It holds exactly value, player_decision and reason, in that order, with the decision's data. |
| Export.DecisionsOutputOk | example_decisions/views.py:125-129 | The decision loop never fails. It lists the entries of the given decisions in order. |
| Export.PlayerDecisionsComplete | example_decisions/views.py:126 | For a context read from a table, a player's decision list holds exactly the rows the player owns, by ascending id. |
| Export.PlayerEntryOk | example_decisions/views.py:117-126 | A player's entry is written exactly when its field list exists, names only attributes of the player, and the player has a `decision_set`. A player of another app whose fields are all present fails with a missing `decision_set`. |
| Export.PlayerEntry | example_decisions/views.py:116-131 | The entry holds the player's fields, then participant_id_in_session, then the player's decisions in ascending id order. The player field list becomes fixed and is the only list that changes. |
| Export.PlayerStepKeeps | example_decisions/views.py:118 | A player step keeps every fixed field list. |
| Export.GroupEntry | example_decisions/views.py:110-131 | The entry holds the group's fields, then its players as a permutation in ascending participant id_in_session order. The group field list becomes fixed and stays so, and no fixed list changes. |
| Export.GroupPlayersHaveDecisionSets | example_decisions/views.py:102-126 | A group is written only if every player in it has a `decision_set`. So a session that also holds another app's rounds fails the export. |
| Export.GroupPlayersShareList | example_decisions/views.py:116-118 | Every player of a group is written under the player field list the group's first player used. |
| Export.GroupStepKeeps | example_decisions/views.py:111 | A group step keeps every fixed field list. |
| Export.SubsessionEntry | example_decisions/views.py:103-133 | The entry holds the subsession's fields, then its groups in ascending id_in_subsession order. The subsession field list becomes fixed and stays so. |
| Export.SubsessionGroupsShareList | example_decisions/views.py:109-111 | Every group of a subsession is written under the group field list its first group used. |
| Export.SubsessionStepKeeps | example_decisions/views.py:104 | A subsession step keeps every fixed field list. |
| Export.SessionEntry | example_decisions/views.py:96-135 | The entry holds the session's fields, then its subsessions in ascending round_number order. The session field list becomes fixed and stays so. |
| Export.SessionSubsessionsShareList | example_decisions/views.py:102-104 | Every subsession of a session is written under the subsession field list its first subsession used. |
| Export.SessionStepKeeps | example_decisions/views.py:97 | A session step keeps every fixed field list. |
| Export.DistinctSessions | example_decisions/views.py:90 | `set(...)` of the players' sessions: the same primary keys, each once, and only sessions that occur. |
| Export.DistinctPksPermutation | example_decisions/views.py:90 | Sorting sessions whose keys are distinct keeps them distinct. |
| Export.OrderedSessionsSpec | example_decisions/views.py:90 | Every session of some player appears exactly once, in ascending label order. |
| Export.ExportEntries | example_decisions/views.py:89-137 | The export writes one entry per ordered session. The i-th entry starts from the field lists the sessions before it left. Every session is written under the session field list looked up for the first session. |
| Export.ExportPlayer | example_decisions/views.py:117-131 | The player loop body computes PlayerOutput. |
| Export.ExportGroup | example_decisions/views.py:110-133 | The group loop computes GroupOutput. |
| Export.ExportSubsession | example_decisions/views.py:103-135 | The subsession loop computes SubsessionOutput. |
| Export.ExportSession | example_decisions/views.py:96-137 | The session loop computes SessionOutput. |
| Export.ExportViewJson | example_decisions/views.py:61-139 | export_view_json's nested loops compute ExportOutput. |

## Left out

- The ORM is left out, along with what it does:
  - querying, `select_related` and `prefetch_related`;
  - persistence (`save()` only updates the in-memory table);
  - database transactions.
- `Decision.objects.filter(player=...)` in `vars_for_template` has no explicit order. It is modelled as ascending by id, the same order as `order_by('id')`.
- `decision_set.create()` followed by setting the value and `save()` is one step, `Models.DecisionTable.Create`. The transient row with no value in between is not modelled.
- `random.randint` is left out. The value is an arbitrary choice in [1, 10].
- Rendering is left out: the `DecisionFormSet` / `modelformset_factory` formset, the HTML templates and the `zip` with the forms. A form is identified by the decision it edits.
- `JsonResponse` serialisation and the `login_required` check are left out. The export returns the list of entries as values.
- `Common.ParseInt`: Python's `int()` also accepts surrounding whitespace, underscores between digits and non-ASCII digits. Only an optional sign followed by ASCII digits is modelled.
- `Export.DistinctSessions`: Python set iteration follows hash order. The model keeps sessions in first-occurrence order, deduplicated by primary key. The result is sorted afterwards, so this matters only for sessions with equal labels.
- `Common.SortBySpec` does not prove that the sort is stable.
- A session whose label is None cannot be compared with a string label in Python. Labels are modelled as strings.
- The export's framework objects are given as finished values:
  - `get_subsessions`, `get_groups`, `get_players` and `participant.id_in_session`;
  - the attribute values of framework objects, beyond the Decision columns;
  - whether a player's class has the `decision_set` relation, which only this
    app's Player has. This is the flag `Export.PlayerNode.hasDecisionSet`.
- The framework's BasePlayer and BaseGroup columns are not part of this repository. They are the `Bases` parameter.
- `Decision.__str__`, `page_sequence` and the oTree lifecycle that calls the hooks are not part of this model.
- `before_next_page` is modelled as written, not as an atomic update. Each decision is saved as soon as it is written. So when a form names an unknown id, the forms applied before it stay written (see `DecisionPage.SubmitOutcome`); an all-or-nothing update would leave nothing written.
- The reason string is not checked against the declared reason codes, as in the code.
- A non-blank player_decision other than "True" is stored as no, as in the code.
