/** The folders of listener sources over adds, deletes, re-adds and mode switches. */
module SourceFolders {
  import opened Text
  import opened FolderNames

  const MAX_SOURCES := 32

  /** A source configuration: `byType` is directory_mode "source_type"; `sound` says that the fields that have nothing
    to do with folders pass their own checks; `rest` stands for those fields. */
  datatype Config = Config(byType: bool, folder: Text, base: Option<int>, sound: bool, rest: int)

  datatype Row = Row(account: int, chat: int, title: Text, config: Config, enabled: bool, deleted: bool, revision: nat)

  /** listener_sources, and the names no source may take: the categories and the heads of the shared directories. */
  datatype Table = Table(rows: map<nat, Row>, nextId: nat, reserved: set<Text>)

  ghost predicate WellFormed(t: Table) {
    && (forall id | id in t.rows :: id < t.nextId)
    && (forall i, j | i in t.rows && j in t.rows && i != j ::
      (t.rows[i].account, t.rows[i].chat) != (t.rows[j].account, t.rows[j].chat))
  }

  /** source_config. */
  predicate Accepted(u: Unicode, c: Config) {
    c.sound && u.safe(c.folder) && SLASH !in c.folder && Fits(u, c.folder) && (c.folder != [] <==> c.base.Some?)
  }

  /** Names in use by anyone but source `id`, deleted sources included. */
  function Used(u: Unicode, t: Table, id: nat): set<Text> {
    t.reserved + set other | other in t.rows && other != id :: Fold(u, t.rows[other].config.folder)
  }

  function Head100(title: Text): Text { if |title| <= 100 then title else title[..100] }

  /** _bind_source_folder: the first free name, if the source has none yet. */
  ghost function Bind(u: Unicode, t: Table, c: Config, id: nat, title: Text, chat: int, base: int): Option<Config>
    requires Plausible(u)
  {
    if c.folder != [] then if Accepted(u, c) then Some(c) else None
    else
      CandidatesApart(u, u.clean(title, chat), id);
      var name := FirstFree(Candidates(u, u.clean(title, chat), id), Used(u, t, id), 0);
      if name.None? then None
      else
        var bound := c.(folder := name.value, base := Some(base));
        if Accepted(u, bound) then Some(bound) else None
  }

  function Live(t: Table): set<nat> { set id | id in t.rows && !t.rows[id].deleted }

  predicate Same(r: Row, account: int, chat: int) { r.account == account && r.chat == chat }

  /** A deleted source comes back; with a save root it keeps the folder and base it had. */
  ghost function Revive(u: Unicode, t: Table, id: nat, title: Text, c: Config, base: Option<int>): Option<Table>
    requires Plausible(u) && id in t.rows
  {
    var row := t.rows[id];
    if row.deleted then
      var config := if base.None? then Some(c)
                    else Bind(u, t, c.(folder := row.config.folder, base := row.config.base, byType := true), id,
                        title, row.chat, base.value);
      if config.None? then None else Some(t.(rows := t.rows[id := Revived(row, title, config.value)]))
    else None
  }

  function Revived(row: Row, title: Text, config: Config): Row {
    row.(config := config, title := Head100(title), deleted := false, enabled := false, revision := row.revision + 1)
  }

  ghost function Enter(u: Unicode, t: Table, account: int, chat: int, title: Text, c: Config,
      base: Option<int>): Option<Table>
    requires Plausible(u)
  {
    var config := if base.None? then Some(c) else Bind(u, t, c.(byType := true), t.nextId, title, chat, base.value);
    if config.None? then None
    else Some(t.(rows := t.rows[t.nextId := Row(account, chat, Head100(title), config.value, false, false, 1)],
        nextId := t.nextId + 1))
  }

  ghost function Find(rows: map<nat, Row>, account: int, chat: int): (r: Option<nat>)
    ensures r.Some? ==> r.value in rows && Same(rows[r.value], account, chat)
    ensures r.None? ==> forall id | id in rows :: !Same(rows[id], account, chat)
  {
    if exists id :: id in rows && Same(rows[id], account, chat) then
      var id :| id in rows && Same(rows[id], account, chat);
      Some(id)
    else None
  }

  /** save_source: a new source, or a deleted one that comes back. Nothing is written when it is refused. */
  ghost function Save(u: Unicode, t: Table, account: int, chat: int, title: Text, c: Config,
      base: Option<int>): Option<Table>
    requires Plausible(u)
  {
    if !Accepted(u, c) || |Live(t)| >= MAX_SOURCES then None
    else match Find(t.rows, account, chat)
      case Some(id) => Revive(u, t, id, title, c, base)
      case None => Enter(u, t, account, chat, title, c, base)
  }

  /** What change_source makes of a new configuration. One that does not mention the folder takes over the old one, so
    that `c` always has both fields; any other folder or base is refused. */
  ghost function Changed(u: Unicode, t: Table, id: nat, c: Config, base: Option<int>): Option<Config>
    requires Plausible(u) && id in t.rows
  {
    var row := t.rows[id];
    if !Accepted(u, c) || c.folder != row.config.folder || c.base != row.config.base then None
    else if c.byType && c.folder == [] then
      if base.None? then None else Bind(u, t, c, id, row.title, row.chat, base.value)
    else Some(c)
  }

  /** change_source, as far as folders are concerned. */
  ghost function Change(u: Unicode, t: Table, id: nat, revision: nat, config: Option<Config>, enabled: Option<bool>,
      delete: bool, base: Option<int>): Option<Table>
    requires Plausible(u)
  {
    if id !in t.rows || t.rows[id].revision != revision || t.rows[id].deleted then None
    else
      var row := t.rows[id];
      var value := if config.Some? then Changed(u, t, id, config.value, base) else Some(row.config);
      if value.None? then None
      else if base.Some? && value.value.byType && (value.value.folder == [] || value.value.base != base) then None
      else
        var on := if delete || value.value.byType != row.config.byType then Some(false) else enabled;
        Some(t.(rows := t.rows[id := row.(config := value.value, enabled := if on.Some? then on.value else row.enabled,
            deleted := delete, revision := row.revision + 1)]))
  }

  datatype Op =
    | SaveOp(account: int, chat: int, title: Text, config: Config, base: Option<int>)
    | ChangeOp(id: nat, revision: nat, newConfig: Option<Config>, enabled: Option<bool>, delete: bool,
        base: Option<int>)
    | DirectoriesOp(reserved: set<Text>)

  /** One operation; a refused one rolls back. */
  ghost function Apply(u: Unicode, t: Table, op: Op): Table
    requires Plausible(u)
  {
    var r := match op
      case SaveOp(account, chat, title, config, base) => Save(u, t, account, chat, title, config, base)
      case ChangeOp(id, revision, config, enabled, delete, base) =>
        Change(u, t, id, revision, config, enabled, delete, base)
      case DirectoriesOp(reserved) => Some(t.(reserved := reserved));
    if r.Some? then r.value else t
  }

  ghost function Run(u: Unicode, t: Table, ops: seq<Op>): Table
    requires Plausible(u)
    decreases |ops|
  {
    if ops == [] then t else Run(u, Apply(u, t, ops[0]), ops[1..])
  }

  /** Configurations for new sources carry no folder of their own. */
  predicate Bare(op: Op) { op.SaveOp? ==> op.config.folder == [] }

  predicate HasFolder(r: Row) { r.config.folder != [] }

  /** Sources with a folder have different ones, ignoring case. */
  ghost predicate Separate(u: Unicode, t: Table) {
    forall i, j | i in t.rows && j in t.rows && i != j && HasFolder(t.rows[i]) && HasFolder(t.rows[j]) ::
      Fold(u, t.rows[i].config.folder) != Fold(u, t.rows[j].config.folder)
  }

  ghost predicate Sound(u: Unicode, t: Table) {
    && WellFormed(t) && Separate(u, t)
    && forall id | id in t.rows :: t.rows[id].config.folder != [] ==> Fits(u, t.rows[id].config.folder)
  }

  /** A folder that is bound stays with its source, name and base. */
  ghost predicate Keeps(before: Row, after: Row) {
    before.config.folder != [] ==>
        after.config.folder == before.config.folder && after.config.base == before.config.base
  }

  /** Bringing a deleted source that has a folder back without naming the save root: the one operation that can lose a
    folder. The rest is what save_source checks before it looks the source up. */
  ghost predicate Forgets(u: Unicode, t: Table, op: Op) {
    && op.SaveOp? && op.base.None? && Accepted(u, op.config) && |Live(t)| < MAX_SOURCES
    && exists id :: id in t.rows && Same(t.rows[id], op.account, op.chat) && t.rows[id].deleted
        && t.rows[id].config.folder != []
  }

  /** What Bind gives: the configuration it was given, or one with a name that nobody else uses. */
  lemma BoundIsNew(u: Unicode, t: Table, c: Config, id: nat, title: Text, chat: int, base: int)
    requires Plausible(u)
    ensures var r := Bind(u, t, c, id, title, chat, base);
      r.Some? ==>
        && r.value.folder != [] && Fits(u, r.value.folder)
        && (if c.folder == [] then Fold(u, r.value.folder) !in Used(u, t, id) && r.value.base == Some(base)
            else r.value == c)
  {
    if c.folder == [] {
      CandidatesApart(u, u.clean(title, chat), id);
      SearchFinds(u, u.clean(title, chat), id, Used(u, t, id));
    }
  }

  /** A row may take a folder that is its own already or that nobody else uses. */
  lemma PutSound(u: Unicode, t: Table, id: nat, row: Row)
    requires Sound(u, t)
    requires id in t.rows ==> Same(row, t.rows[id].account, t.rows[id].chat)
    requires id !in t.rows ==> id == t.nextId && forall i | i in t.rows :: !Same(t.rows[i], row.account, row.chat)
    requires row.config.folder != [] ==>
      && Fits(u, row.config.folder)
      && ((id in t.rows && row.config.folder == t.rows[id].config.folder)
          || Fold(u, row.config.folder) !in Used(u, t, id))
    ensures Sound(u, t.(rows := t.rows[id := row], nextId := if id in t.rows then t.nextId else t.nextId + 1))
  {
    forall i | i in t.rows && i != id
      ensures Fold(u, t.rows[i].config.folder) in Used(u, t, id)
    {
    }
  }

  /** The table after a saved source: still sound, and no folder lost but that of a source that came back without a
    save root. */
  ghost predicate SavedSoundly(u: Unicode, t: Table, account: int, chat: int, base: Option<int>, after: Table) {
    && Sound(u, after)
    && (forall id | id in t.rows :: id in after.rows)
    && (forall id | id in t.rows && (!Same(t.rows[id], account, chat) || base.Some?) ::
          Keeps(t.rows[id], after.rows[id]))
    && (forall id | id in t.rows && Same(t.rows[id], account, chat) && base.None? :: after.rows[id].config.folder == [])
  }

  /** The row a source comes back with: with a save root it keeps its folder or takes a free one, without a save root it
    has none. */
  lemma RevivedRow(u: Unicode, t: Table, id: nat, title: Text, c: Config, base: Option<int>) returns (row: Row)
    requires Plausible(u) && c.folder == [] && id in t.rows
    ensures var r := Revive(u, t, id, title, c, base);
      r.Some? ==>
        && r.value == t.(rows := t.rows[id := row]) && Same(row, t.rows[id].account, t.rows[id].chat)
        && (base.None? ==> row.config.folder == [])
        && (base.Some? ==> Keeps(t.rows[id], row) && Fits(u, row.config.folder))
        && (base.Some? && t.rows[id].config.folder == [] ==> Fold(u, row.config.folder) !in Used(u, t, id))
  {
    var before := t.rows[id];
    var given := c.(folder := before.config.folder, base := before.config.base, byType := true);
    if base.Some? {
      BoundIsNew(u, t, given, id, title, before.chat, base.value);
    }
    var r := Revive(u, t, id, title, c, base);
    row := if r.Some? then r.value.rows[id] else before;
  }

  lemma ReviveSound(u: Unicode, t: Table, id: nat, title: Text, c: Config, base: Option<int>)
    requires Plausible(u) && Sound(u, t) && c.folder == [] && id in t.rows
    ensures var r := Revive(u, t, id, title, c, base);
      r.Some? ==> SavedSoundly(u, t, t.rows[id].account, t.rows[id].chat, base, r.value)
  {
    var row := RevivedRow(u, t, id, title, c, base);
    if Revive(u, t, id, title, c, base).Some? {
      PutSound(u, t, id, row);
    }
  }

  lemma EnterSound(u: Unicode, t: Table, account: int, chat: int, title: Text, c: Config, base: Option<int>)
    requires Plausible(u) && Sound(u, t) && c.folder == []
    requires forall id | id in t.rows :: !Same(t.rows[id], account, chat)
    ensures var r := Enter(u, t, account, chat, title, c, base);
      r.Some? ==> SavedSoundly(u, t, account, chat, base, r.value)
  {
    if base.Some? {
      BoundIsNew(u, t, c.(byType := true), t.nextId, title, chat, base.value);
    }
    var r := Enter(u, t, account, chat, title, c, base);
    if r.Some? {
      PutSound(u, t, t.nextId, r.value.rows[t.nextId]);
    }
  }

  lemma SaveSound(u: Unicode, t: Table, account: int, chat: int, title: Text, c: Config, base: Option<int>)
    requires Plausible(u) && Sound(u, t) && c.folder == []
    ensures var r := Save(u, t, account, chat, title, c, base);
      r.Some? ==> SavedSoundly(u, t, account, chat, base, r.value)
  {
    match Find(t.rows, account, chat) {
      case Some(id) => ReviveSound(u, t, id, title, c, base);
      case None => EnterSound(u, t, account, chat, title, c, base);
    }
  }

  /** Without a save root a source comes back whenever it was deleted and the checks let it pass. */
  lemma ForgettingSaves(u: Unicode, t: Table, op: Op)
    requires Plausible(u) && WellFormed(t) && Forgets(u, t, op)
    ensures Save(u, t, op.account, op.chat, op.title, op.config, op.base).Some?
  {
    var id :| id in t.rows && Same(t.rows[id], op.account, op.chat) && t.rows[id].deleted
        && t.rows[id].config.folder != [];
    assert Find(t.rows, op.account, op.chat) == Some(id);
  }

  /** And if it comes back and loses a folder, the condition held. */
  lemma LosingForgets(u: Unicode, t: Table, op: Op, id: nat)
    requires Plausible(u) && WellFormed(t) && op.SaveOp? && op.base.None? && id in t.rows
    requires Save(u, t, op.account, op.chat, op.title, op.config, op.base).Some?
    requires Same(t.rows[id], op.account, op.chat) && t.rows[id].config.folder != []
    ensures Forgets(u, t, op)
  {
    assert Find(t.rows, op.account, op.chat) == Some(id);
  }

  lemma ChangeSound(u: Unicode, t: Table, id: nat, revision: nat, config: Option<Config>, enabled: Option<bool>,
      delete: bool, base: Option<int>)
    requires Plausible(u) && Sound(u, t)
    ensures var r := Change(u, t, id, revision, config, enabled, delete, base);
      r.Some? ==> Sound(u, r.value) && forall i | i in t.rows :: i in r.value.rows && Keeps(t.rows[i], r.value.rows[i])
  {
    var r := Change(u, t, id, revision, config, enabled, delete, base);
    if r.Some? {
      if config.Some? && config.value.byType && config.value.folder == [] {
        BoundIsNew(u, t, config.value, id, t.rows[id].title, t.rows[id].chat, base.value);
      }
      PutSound(u, t, id, r.value.rows[id]);
    }
  }

  /** One operation keeps the folders apart, and it keeps every bound folder exactly when it is not a re-add that
    forgets the save root. */
  lemma StepKeepsFolders(u: Unicode, t: Table, op: Op)
    requires Plausible(u) && Sound(u, t) && Bare(op)
    ensures Sound(u, Apply(u, t, op))
    ensures forall id | id in t.rows :: id in Apply(u, t, op).rows
    ensures (forall id | id in t.rows :: Keeps(t.rows[id], Apply(u, t, op).rows[id])) <==> !Forgets(u, t, op)
  {
    match op {
      case SaveOp(_, _, _, _, _) => SaveStepKeepsFolders(u, t, op);
      case ChangeOp(id, revision, config, enabled, delete, base) =>
        ChangeSound(u, t, id, revision, config, enabled, delete, base);
      case DirectoriesOp(reserved) =>
    }
  }

  lemma SaveStepKeepsFolders(u: Unicode, t: Table, op: Op)
    requires Plausible(u) && Sound(u, t) && Bare(op) && op.SaveOp?
    ensures Sound(u, Apply(u, t, op))
    ensures forall id | id in t.rows :: id in Apply(u, t, op).rows
    ensures (forall id | id in t.rows :: Keeps(t.rows[id], Apply(u, t, op).rows[id])) <==> !Forgets(u, t, op)
  {
    SaveSound(u, t, op.account, op.chat, op.title, op.config, op.base);
    if Forgets(u, t, op) {
      ForgettingSaves(u, t, op);
      var id :| id in t.rows && Same(t.rows[id], op.account, op.chat) && t.rows[id].deleted
          && t.rows[id].config.folder != [];
      assert !Keeps(t.rows[id], Apply(u, t, op).rows[id]);
    } else if Save(u, t, op.account, op.chat, op.title, op.config, op.base).Some? {
      forall id | id in t.rows
        ensures Keeps(t.rows[id], Apply(u, t, op).rows[id])
      {
        if op.base.None? && Same(t.rows[id], op.account, op.chat) && t.rows[id].config.folder != [] {
          LosingForgets(u, t, op, id);
        }
      }
    }
  }

  /** No operation of the run forgets the save root when it brings a source back. */
  ghost predicate Remembers(u: Unicode, t: Table, ops: seq<Op>)
    requires Plausible(u)
    decreases |ops|
  {
    ops != [] ==> Bare(ops[0]) && !Forgets(u, t, ops[0]) && Remembers(u, Apply(u, t, ops[0]), ops[1..])
  }

  /** Over all adds, deletes, re-adds and mode switches: no two sources, deleted ones included, share a folder ignoring
    case, every folder is within the limits, and a bound folder never changes. */
  lemma {:induction false} FoldersHold(u: Unicode, t: Table, ops: seq<Op>)
    requires Plausible(u) && Sound(u, t) && Remembers(u, t, ops)
    ensures Sound(u, Run(u, t, ops))
    ensures forall id | id in t.rows :: id in Run(u, t, ops).rows && Keeps(t.rows[id], Run(u, t, ops).rows[id])
    decreases |ops|
  {
    if ops != [] {
      var next := Apply(u, t, ops[0]);
      StepKeepsFolders(u, t, ops[0]);
      FoldersHold(u, next, ops[1..]);
      forall id | id in t.rows
        ensures id in Run(u, t, ops).rows && Keeps(t.rows[id], Run(u, t, ops).rows[id])
      {
        assert id in next.rows && Keeps(t.rows[id], next.rows[id]);
        assert Keeps(next.rows[id], Run(u, next, ops[1..]).rows[id]);
      }
    }
  }

  /** The folders stay apart even over runs that forget. */
  lemma {:induction false} FoldersStayApart(u: Unicode, t: Table, ops: seq<Op>)
    requires Plausible(u) && Sound(u, t) && forall op | op in ops :: Bare(op)
    ensures Sound(u, Run(u, t, ops))
    decreases |ops|
  {
    if ops != [] {
      StepKeepsFolders(u, t, ops[0]);
      FoldersStayApart(u, Apply(u, t, ops[0]), ops[1..]);
    }
  }

  // ------------------------------------------------------- a folder that is lost

  const NO_SOURCES := Table(map[], 1, {})

  /** The first source is saved with a save root, deleted, and added again without one. */
  function Readd(account: int, chat: int, title: Text, c: Config, base: int): seq<Op> {
    [SaveOp(account, chat, title, c, Some(base)), ChangeOp(1, 1, None, None, true, None),
     SaveOp(account, chat, title, c, None)]
  }

  /** The table of one source, number 1. */
  ghost predicate Only(t: Table, row: Row) { t.rows == map[1 := row] && t.nextId == 2 && t.reserved == {} }

  lemma FirstSaved(u: Unicode, account: int, chat: int, title: Text, c: Config, base: int) returns (row: Row)
    requires Plausible(u) && c.folder == []
    ensures Save(u, NO_SOURCES, account, chat, title, c, Some(base)).Some? ==>
      && Only(Apply(u, NO_SOURCES, SaveOp(account, chat, title, c, Some(base))), row)
      && Same(row, account, chat) && HasFolder(row) && row.revision == 1 && !row.deleted
  {
    BoundIsNew(u, NO_SOURCES, c.(byType := true), 1, title, chat, base);
    var saved := Save(u, NO_SOURCES, account, chat, title, c, Some(base));
    row := if saved.Some? then saved.value.rows[1] else Row(account, chat, [], c, false, false, 1);
  }

  lemma ThenDeleted(u: Unicode, t: Table, row: Row)
    requires Plausible(u) && Only(t, row) && row.revision == 1 && !row.deleted
    ensures Only(Apply(u, t, ChangeOp(1, 1, None, None, true, None)),
                 row.(enabled := false, deleted := true, revision := 2))
  {
  }

  lemma ThenAdded(u: Unicode, t: Table, row: Row, title: Text, c: Config)
    requires Plausible(u) && Only(t, row) && row.deleted && Accepted(u, c)
    ensures Only(Apply(u, t, SaveOp(row.account, row.chat, title, c, None)), Revived(row, title, c))
  {
    assert Live(t) == {};
    assert Find(t.rows, row.account, row.chat) == Some(1) by {
      assert Same(t.rows[1], row.account, row.chat);
    }
  }

  /** Counterexample: from the empty table, whichever source is saved with a folder, its folder is gone once it has been
    deleted and added again without a save root. */
  lemma ReaddLosesFolder(u: Unicode, account: int, chat: int, title: Text, c: Config, base: int)
      returns (before: Row, after: Row)
    requires Plausible(u) && c.folder == []
    ensures var ops := Readd(account, chat, title, c, base);
      Save(u, NO_SOURCES, account, chat, title, c, Some(base)).Some? ==>
        && Only(Apply(u, NO_SOURCES, ops[0]), before) && HasFolder(before)
        && Only(Run(u, NO_SOURCES, ops), after) && !HasFolder(after)
        && Same(before, account, chat) && Same(after, account, chat) && !after.deleted
  {
    before := FirstSaved(u, account, chat, title, c, base);
    var ops, gone := Readd(account, chat, title, c, base), before.(enabled := false, deleted := true, revision := 2);
    after := Revived(gone, title, c);
    if Save(u, NO_SOURCES, account, chat, title, c, Some(base)).Some? {
      var t := Apply(u, NO_SOURCES, ops[0]);
      ThenDeleted(u, t, before);
      ThenAdded(u, Apply(u, t, ops[1]), gone, title, c);
      RunOfThree(u, NO_SOURCES, ops);
    }
  }

  lemma RunOfThree(u: Unicode, t: Table, ops: seq<Op>)
    requires Plausible(u) && |ops| == 3
    ensures Run(u, t, ops) == Apply(u, Apply(u, Apply(u, t, ops[0]), ops[1]), ops[2])
  {
    var first := Apply(u, t, ops[0]);
    var second := Apply(u, first, ops[1]);
    assert ops[1..][1..] == [ops[2]] && [ops[2]][1..] == [];
    assert Run(u, first, ops[1..]) == Run(u, second, [ops[2]]);
    assert Run(u, second, [ops[2]]) == Run(u, Apply(u, second, ops[2]), []);
  }

  /** A title of one letter that fits names its folder. */
  lemma OneLetter(u: Unicode, text: Text, id: nat)
    requires |text| == 1 && !u.mark(text[0]) && text[0] !in {SPACE, DOT} && Fits(u, text) && u.safe(text)
    ensures Candidate(u, text, id, 0) == Some(text)
  {
    assert text[..0] == [] && [text][..0] == [] && [text][..1] == [text] && text == [text[0]];
    assert Clusters(u, text) == Clusters(u, []) + [text];
    assert Join([text]) == text && text + [] == text;
    assert Taken(u, [text], [], 0) == 1;
  }

  predicate Letter(u: Unicode, title: Text, chat: int) {
    && |title| == 1 && title[0] !in {SPACE, DOT, SLASH} && !u.mark(title[0]) && u.clean(title, chat) == title
    && Fits(u, title) && u.safe([]) && u.safe(title)
  }

  lemma LetterIsFree(u: Unicode, title: Text, chat: int, id: nat, used: set<Text>)
    requires Letter(u, title, chat) && Fold(u, title) !in used
    ensures Frees(Candidates(u, title, id), 0, used, title)
  {
    OneLetter(u, title, id);
  }

  /** A free first candidate is bound. */
  lemma FirstIsBound(u: Unicode, t: Table, c: Config, id: nat, title: Text, chat: int, base: int, name: Text)
    requires Plausible(u) && Frees(Candidates(u, u.clean(title, chat), id), 0, Used(u, t, id), name)
    requires c.folder == [] && Accepted(u, c.(folder := name, base := Some(base)))
    ensures Bind(u, t, c, id, title, chat, base) == Some(c.(folder := name, base := Some(base)))
  {
    CandidatesApart(u, u.clean(title, chat), id);
    FirstIsFree(Candidates(u, u.clean(title, chat), id), Used(u, t, id), name);
  }

  lemma LetterIsBound(u: Unicode, t: Table, c: Config, id: nat, title: Text, chat: int, base: int)
    requires Plausible(u) && Letter(u, title, chat) && Fold(u, title) !in Used(u, t, id)
    requires c.folder == [] && c.sound
    ensures Bind(u, t, c, id, title, chat, base) == Some(c.(folder := title, base := Some(base)))
  {
    LetterIsFree(u, title, chat, id, Used(u, t, id));
    FirstIsBound(u, t, c, id, title, chat, base, title);
  }

  lemma FirstIsFree(names: Names, used: set<Text>, name: Text)
    requires Apart(names) && Frees(names, 0, used, name)
    ensures FirstFree(names, used, 0) == Some(name)
  {
  }

  /** There are such sources: a title of one letter is saved with a folder of that name. */
  lemma LetterIsSaved(u: Unicode, account: int, chat: int, title: Text, base: int)
    requires Plausible(u) && Letter(u, title, chat)
    ensures var r := Save(u, NO_SOURCES, account, chat, title, Config(false, [], None, true, 0), Some(base));
      r.Some? && 1 in r.value.rows && r.value.rows[1].config.folder == title
  {
    var c := Config(false, [], None, true, 0);
    LetterIsBound(u, NO_SOURCES, c.(byType := true), 1, title, chat, base);
    assert Enter(u, NO_SOURCES, account, chat, title, c, Some(base)).Some?;
    assert Live(NO_SOURCES) == {} && Accepted(u, c);
    assert Find(NO_SOURCES.rows, account, chat) == None;
  }

  /** One column and one byte for ASCII, nothing to clean and nothing to refuse. */
  function Latin(): Unicode {
    Unicode((c: int) => if c < 128 then 1 else 2, (c: int) => if c < 128 then 1 else 3, (c: int) => false,
            (c: int) => [c], (title: Text, chat: int) => title, (path: Text) => true)
  }

  lemma LatinLetters(title: Text, chat: int)
    requires |title| == 1 && title[0] !in {SPACE, DOT, SLASH}
    ensures Plausible(Latin()) && Letter(Latin(), title, chat)
  {
    LetterSum(Latin().columns, title);
    LetterSum(Latin().bytes, title);
  }

  lemma LetterSum(f: int -> nat, t: Text)
    requires |t| == 1
    ensures Sum(f, t) == f(t[0])
  {
    assert t[..0] == [];
  }

  // --------------------------------------------------------------- the code

  class Sources {
    const u: Unicode
    var rows: map<nat, Row>
    var nextId: nat
    var reserved: set<Text>

    ghost function View(): Table
      reads this
    {
      Table(rows, nextId, reserved)
    }

    constructor (u: Unicode, reserved: set<Text>)
      ensures this.u == u && View() == Table(map[], 1, reserved)
    {
      this.u, rows, nextId, this.reserved := u, map[], 1, reserved;
    }

    /** _bind_source_folder. */
    method BindFolder(c: Config, id: nat, title: Text, chat: int, base: int) returns (r: Option<Config>)
      requires Plausible(u)
      ensures r == Bind(u, View(), c, id, title, chat, base)
    {
      var config := c;
      if config.folder == [] {
        var used := reserved + set other | other in rows && other != id :: Fold(u, rows[other].config.folder);
        var name := FindFree(u, title, chat, id, used);
        if name.None? {
          return None;
        }
        config := config.(folder := name.value, base := Some(base));
      }
      r := if Accepted(u, config) then Some(config) else None;
    }

    method ReviveSource(id: nat, title: Text, c: Config, base: Option<int>) returns (saved: bool)
      requires Plausible(u) && id in rows
      modifies this`rows
      ensures var r := Revive(u, old(View()), id, title, c, base);
        saved == r.Some? && View() == if r.Some? then r.value else old(View())
    {
      var row := rows[id];
      if !row.deleted {
        return false;
      }
      var config := Some(c);
      if base.Some? {
        config := BindFolder(c.(folder := row.config.folder, base := row.config.base, byType := true), id, title,
            row.chat, base.value);
      }
      if config.None? {
        return false;
      }
      rows := rows[id := Revived(row, title, config.value)];
      return true;
    }

    method EnterSource(account: int, chat: int, title: Text, c: Config, base: Option<int>) returns (saved: bool)
      requires Plausible(u)
      modifies this`rows, this`nextId
      ensures var r := Enter(u, old(View()), account, chat, title, c, base);
        saved == r.Some? && View() == if r.Some? then r.value else old(View())
    {
      var config := Some(c);
      if base.Some? {
        config := BindFolder(c.(byType := true), nextId, title, chat, base.value);
      }
      if config.None? {
        return false;
      }
      rows := rows[nextId := Row(account, chat, Head100(title), config.value, false, false, 1)];
      nextId := nextId + 1;
      return true;
    }

    method SaveSource(account: int, chat: int, title: Text, c: Config, base: Option<int>) returns (saved: bool)
      requires Plausible(u) && WellFormed(View())
      modifies this`rows, this`nextId
      ensures var r := Save(u, old(View()), account, chat, title, c, base);
        saved == r.Some? && View() == if r.Some? then r.value else old(View())
    {
      var live := set id | id in rows && !rows[id].deleted;
      assert live == Live(View());
      if !Accepted(u, c) || |live| >= MAX_SOURCES {
        return false;
      }
      if id :| id in rows && Same(rows[id], account, chat) {
        assert Find(rows, account, chat) == Some(id);
        saved := ReviveSource(id, title, c, base);
      } else {
        assert Find(rows, account, chat) == None;
        saved := EnterSource(account, chat, title, c, base);
      }
    }

    method NewConfig(id: nat, c: Config, base: Option<int>) returns (value: Option<Config>)
      requires Plausible(u) && id in rows
      ensures value == Changed(u, View(), id, c, base)
    {
      var row := rows[id];
      if !Accepted(u, c) || c.folder != row.config.folder || c.base != row.config.base {
        return None;
      }
      value := Some(c);
      if c.byType && c.folder == [] {
        if base.None? {
          return None;
        }
        value := BindFolder(c, id, row.title, row.chat, base.value);
      }
    }

    method ChangeSource(id: nat, revision: nat, config: Option<Config>, enabled: Option<bool>, delete: bool,
        base: Option<int>)
      returns (changed: bool)
      requires Plausible(u)
      modifies this`rows
      ensures var r := Change(u, old(View()), id, revision, config, enabled, delete, base);
        changed == r.Some? && View() == if r.Some? then r.value else old(View())
    {
      if id !in rows || rows[id].revision != revision || rows[id].deleted {
        return false;
      }
      var row := rows[id];
      var value := Some(row.config);
      if config.Some? {
        value := NewConfig(id, config.value, base);
      }
      if value.None? || (base.Some? && value.value.byType && (value.value.folder == [] || value.value.base != base)) {
        return false;
      }
      var on := enabled;
      if value.value.byType != row.config.byType {
        on := Some(false);
      }
      if delete {
        on := Some(false);
      }
      var running := if on.Some? then on.value else row.enabled;
      rows := rows[id := row.(config := value.value, enabled := running, deleted := delete,
          revision := row.revision + 1)];
      return true;
    }
  }
}
