/** How each report turns the upstream payload into table rows: which JSON
    shapes a report accepts, the per-column alias tables, and the loops that
    number and collect the rows. */
module Reports {
  import opened Json

  const EnDash := "\U{2013}"

  // ----- Payload shapes -----

  /** `payload or []`: a falsy payload stands for an empty list. */
  function OrEmpty(payload: JVal): JVal
  {
    if Truthy(payload) then payload else JList([])
  }

  /** The dicts that `for e in v: e.get(...)` visits. Iterating None, a bool
      or a number fails; iterating a non-empty string or dict yields strings,
      on which `.get` fails; so does any list element that is not a dict. */
  function RecordList(v: JVal): (r: Result<seq<Record>>)
    ensures r.Ok? <==> (v.JList? && forall k :: 0 <= k < |v.items| ==> v.items[k].JObj?)
                       || v == JStr("") || v == JObj(map[])
    ensures r.Ok? && v.JList? ==>
      |r.value| == |v.items| && forall k :: 0 <= k < |r.value| ==> v.items[k] == JObj(r.value[k])
    ensures r.Ok? && !v.JList? ==> r.value == []
  {
    match v
    case JList(xs) =>
      if forall k :: 0 <= k < |xs| ==> xs[k].JObj? then
        Ok(seq(|xs|, k requires 0 <= k < |xs| && xs[k].JObj? => xs[k].fields))
      else Err(NotADict)
    case JStr(s) => if s == "" then Ok([]) else Err(NotADict)
    case JObj(m) => if m == map[] then Ok([]) else Err(NotADict)
    case _ => Err(NotIterable)
  }

  /** A falsy payload (null, [], {}, "", 0, false) gives a report with no rows. */
  lemma FalsyPayloadHasNoRecords(payload: JVal)
    requires !Truthy(payload)
    ensures RecordList(OrEmpty(payload)) == Ok([])
  {
  }

  // ----- Column alias tables -----

  /** One report column: the keys tried in order, and the value used when none is truthy. */
  datatype Column = Column(aliases: seq<string>, dflt: JVal)

  /** The cells of one row: `str(rec.get(a0) or rec.get(a1) or ... or dflt)` per column. */
  function Cells(rec: Record, columns: seq<Column>): (cells: seq<string>)
    ensures |cells| == |columns|
  {
    seq(|columns|, c requires 0 <= c < |columns| => Str(Resolve(rec, columns[c].aliases, columns[c].dflt)))
  }

  /** A cell shows the value of its column's first truthy alias. */
  lemma CellTakesFirstTruthy(rec: Record, columns: seq<Column>, c: int, k: int)
    requires 0 <= c < |columns| && FirstTruthyAt(rec, columns[c].aliases, k)
    ensures Cells(rec, columns)[c] == Str(Get(rec, columns[c].aliases[k]))
  {
    ResolveTakesFirstTruthy(rec, columns[c].aliases, columns[c].dflt, k);
  }

  /** A cell whose aliases are all missing or falsy shows its column's default. */
  lemma CellFallsBackToDefault(rec: Record, columns: seq<Column>, c: int)
    requires 0 <= c < |columns|
    requires forall k :: 0 <= k < |columns[c].aliases| ==> !Truthy(Get(rec, columns[c].aliases[k]))
    ensures Cells(rec, columns)[c] == Str(columns[c].dflt)
  {
  }

  // Teams: lower-case key first.
  const TeamColumns: seq<Column> := [
    Column(["id", "Id"], JStr("")),
    Column(["nombre", "Nombre"], JStr("")),
    Column(["ciudad", "Ciudad"], JStr(EnDash)),
    Column(["puntos", "Puntos"], JInt(0)),
    Column(["faltas", "Faltas"], JInt(0))
  ]

  // Players by team: PascalCase key first.
  const PlayerColumns: seq<Column> := [
    Column(["Nombre", "nombre"], JStr("")),
    Column(["Posicion", "posicion"], JStr(EnDash)),
    Column(["Numero", "numero"], JStr(EnDash)),
    Column(["Edad", "edad"], JStr(EnDash)),
    Column(["Estatura", "estatura"], JStr(EnDash)),
    Column(["Nacionalidad", "nacionalidad"], JStr(EnDash))
  ]

  // Match roster: PascalCase key first.
  const RosterColumns: seq<Column> := [
    Column(["EquipoId", "equipoId"], JStr("")),
    Column(["JugadorNombre", "jugadorNombre"], JStr("")),
    Column(["Posicion", "posicion"], JStr(EnDash))
  ]

  // ----- Teams report -----

  function AsciiLower(c: char): char
  {
    if 'A' <= c <= 'Z' then (c as int + 32) as char else c
  }

  /** `name.lower().replace(" ", "_")`, with ASCII case folding. */
  function Slug(name: string): (slug: string)
    ensures |slug| == |name|
    ensures forall k :: 0 <= k < |slug| ==> slug[k] != ' ' && !('A' <= slug[k] <= 'Z')
    ensures forall k :: 0 <= k < |name| && name[k] == ' ' ==> slug[k] == '_'
    ensures forall k :: 0 <= k < |name| && 'A' <= name[k] <= 'Z' ==> slug[k] == (name[k] as int + 32) as char
    ensures forall k :: 0 <= k < |name| && name[k] != ' ' && !('A' <= name[k] <= 'Z') ==> slug[k] == name[k]
  {
    seq(|name|, k requires 0 <= k < |name| => if name[k] == ' ' then '_' else AsciiLower(name[k]))
  }

  /** Where a team's logo comes from: its logo url when that is truthy,
      otherwise the asset file named after the slug of its display name. */
  datatype LogoSource = Remote(url: JVal) | Asset(path: string)

  datatype TeamRow = TeamRow(logo: LogoSource, cells: seq<string>)

  /** A truthy `LogoUrl`, or else a truthy `logoUrl`, is fetched; only when
      both are falsy is the asset file used. */
  function TeamLogo(e: Record): (logo: LogoSource)
    ensures Truthy(Get(e, "LogoUrl")) ==> logo == Remote(e["LogoUrl"])
    ensures !Truthy(Get(e, "LogoUrl")) && Truthy(Get(e, "logoUrl")) ==> logo == Remote(e["logoUrl"])
    ensures logo.Asset? <==> !Truthy(Get(e, "LogoUrl")) && !Truthy(Get(e, "logoUrl"))
  {
    var url := Resolve(e, ["LogoUrl"], Get(e, "logoUrl"));
    if Truthy(url) then Remote(url)
    else Asset("assets/" + Slug(Str(Resolve(e, TeamColumns[1].aliases, TeamColumns[1].dflt))) + ".png")
  }

  function TeamRowOf(e: Record): TeamRow
  {
    TeamRow(TeamLogo(e), Cells(e, TeamColumns))
  }

  /** The asset path is built from the same name the team's name cell shows. */
  lemma TeamAssetMatchesNameCell(e: Record)
    requires !Truthy(Get(e, "LogoUrl")) && !Truthy(Get(e, "logoUrl"))
    ensures TeamRowOf(e).logo == Asset("assets/" + Slug(TeamRowOf(e).cells[1]) + ".png")
  {
  }

  /** The teams loop: one row per team, in upstream order. */
  method TeamRows(equipos: seq<Record>) returns (rows: seq<TeamRow>)
    ensures |rows| == |equipos|
    ensures forall k :: 0 <= k < |rows| ==> rows[k] == TeamRowOf(equipos[k])
  {
    rows := [];
    for i := 0 to |equipos|
      invariant |rows| == i
      invariant forall k :: 0 <= k < i ==> rows[k] == TeamRowOf(equipos[k])
    {
      rows := rows + [TeamRowOf(equipos[i])];
    }
  }

  // ----- Players-by-team and roster reports -----

  /** A numbered row: the 1-based position, then the columns' cells. */
  function NumberedRow(i: nat, rec: Record, columns: seq<Column>): (row: seq<string>)
    ensures |row| == |columns| + 1
    ensures (forall k :: 0 <= k < |row[0]| ==> '0' <= row[0][k] <= '9') && DigitsValue(row[0]) == i
    ensures |row[0]| > 1 ==> row[0][0] != '0'
    ensures row[1..] == Cells(rec, columns)
  {
    NatToStringRoundTrip(i);
    [NatToString(i)] + Cells(rec, columns)
  }

  /** The players loop: row k is numbered k + 1 and shows the k-th player. */
  method PlayerRows(jugadores: seq<Record>) returns (rows: seq<seq<string>>)
    ensures |rows| == |jugadores|
    ensures forall k :: 0 <= k < |rows| ==> rows[k] == NumberedRow(k + 1, jugadores[k], PlayerColumns)
  {
    rows := [];
    for i := 0 to |jugadores|
      invariant |rows| == i
      invariant forall k :: 0 <= k < i ==> rows[k] == NumberedRow(k + 1, jugadores[k], PlayerColumns)
    {
      rows := rows + [NumberedRow(i + 1, jugadores[i], PlayerColumns)];
    }
  }

  /** The roster loop: row k is numbered k + 1 and shows the k-th entry. */
  method RosterRows(roster: seq<Record>) returns (rows: seq<seq<string>>)
    ensures |rows| == |roster|
    ensures forall k :: 0 <= k < |rows| ==> rows[k] == NumberedRow(k + 1, roster[k], RosterColumns)
  {
    rows := [];
    for i := 0 to |roster|
      invariant |rows| == i
      invariant forall k :: 0 <= k < i ==> rows[k] == NumberedRow(k + 1, roster[k], RosterColumns)
    {
      rows := rows + [NumberedRow(i + 1, roster[i], RosterColumns)];
    }
  }

  /** With both spellings present and truthy, the teams report shows the
      lower-case `nombre` while the players report shows `Nombre`. */
  lemma NamePrecedenceDiffers(rec: Record, i: nat, lower: string, pascal: string)
    requires "nombre" in rec && rec["nombre"] == JStr(lower) && lower != ""
    requires "Nombre" in rec && rec["Nombre"] == JStr(pascal) && pascal != ""
    ensures TeamRowOf(rec).cells[1] == lower
    ensures NumberedRow(i, rec, PlayerColumns)[1] == pascal
  {
  }

  /** The roster shows `Posicion` over `posicion` when both are truthy. */
  lemma RosterPrefersPascalPosition(rec: Record, i: nat, pascal: string, lower: string)
    requires "Posicion" in rec && rec["Posicion"] == JStr(pascal) && pascal != ""
    requires "posicion" in rec && rec["posicion"] == JStr(lower)
    ensures NumberedRow(i, rec, RosterColumns)[3] == pascal
  {
  }

  /** A stored jersey number 0 is falsy, so the number cell shows the dash. */
  lemma ZeroNumberShowsDash(rec: Record, i: nat)
    requires "Numero" in rec && rec["Numero"] == JInt(0)
    requires "numero" !in rec || !Truthy(rec["numero"])
    ensures NumberedRow(i, rec, PlayerColumns)[3] == EnDash
  {
  }

  /** A player with none of the keys shows the declared defaults. */
  lemma EmptyPlayerShowsDefaults(i: nat)
    ensures NumberedRow(i, map[], PlayerColumns)[1..] == ["", EnDash, EnDash, EnDash, EnDash, EnDash]
  {
  }

  // ----- Match history report -----

  /** The items of the history payload `r.json() or {}`: the `items` entry of
      a dict, anything else as it is; then what iterating them visits. */
  function MatchItems(payload: JVal): (r: Result<seq<JVal>>)
    ensures !Truthy(payload) ==> r == Ok([])
    ensures payload.JList? ==> r == Ok(payload.items)
    ensures payload.JObj? && "items" !in payload.fields ==> r == Ok([])
    ensures payload.JObj? && "items" in payload.fields && payload.fields["items"].JList? ==>
      r == Ok(payload.fields["items"].items)
    ensures payload.JStr? ==> r == Ok(Characters(payload.s))
    ensures payload.JObj? && "items" in payload.fields && payload.fields["items"].JStr? ==>
      r == Ok(Characters(payload.fields["items"].s))
    ensures r.Err? <==> (Truthy(payload) &&
      var partidos := if payload.JObj? then GetOr(payload.fields, "items", JList([])) else payload;
      partidos.JNull? || partidos.JBool? || partidos.JInt?)
  {
    var response := if Truthy(payload) then payload else JObj(map[]);
    var partidos := if response.JObj? then GetOr(response.fields, "items", JList([])) else response;
    match partidos
    case JList(xs) => Ok(xs)
    case JStr(s) => Ok(Characters(s))
    case JObj(_) => Ok([])
    case _ => Err(NotIterable)
  }

  datatype Side = Home | Away

  /** Keys tried for the team a side shows. */
  function NameAliases(side: Side): seq<string>
  {
    match side
    case Home => ["EquipoLocalNombre", "equipoLocalNombre", "EquipoLocalId"]
    case Away => ["EquipoVisitanteNombre", "equipoVisitanteNombre", "EquipoVisitanteId"]
  }

  /** The role label that can leak into the name field, in its two spellings. */
  function RoleLabels(side: Side): seq<string>
  {
    match side
    case Home => ["Local", "local"]
    case Away => ["Visitante", "visitante"]
  }

  /** Keys tried for a side's team id when the name is a role label. */
  function IdAliases(side: Side): seq<string>
  {
    match side
    case Home => ["EquipoLocalId", "equipoLocalId"]
    case Away => ["EquipoVisitanteId", "equipoVisitanteId"]
  }

  /** Keys tried for a side's score. */
  function ScoreAliases(side: Side): seq<string>
  {
    match side
    case Home => ["MarcadorLocal", "PuntosLocal", "marcadorLocal"]
    case Away => ["MarcadorVisitante", "PuntosVisitante", "marcadorVisitante"]
  }

  /** The team a side shows: its resolved name, unless that is exactly a role
      label, which is replaced by "Equipo " and the side's team id. */
  function TeamCell(p: Record, side: Side): (cell: JVal)
    ensures cell != JStr(RoleLabels(side)[0]) && cell != JStr(RoleLabels(side)[1])
    ensures Truthy(cell)
  {
    var v := Resolve(p, NameAliases(side), JStr("?"));
    if v == JStr(RoleLabels(side)[0]) || v == JStr(RoleLabels(side)[1])
    then
      var shown := "Equipo " + Str(Resolve(p, IdAliases(side), JStr("?")));
      assert shown[0] == 'E' && RoleLabels(side)[0][0] != 'E' && RoleLabels(side)[1][0] != 'E';
      JStr(shown)
    else v
  }

  /** The role-label substitution happens for exactly the two spellings and
      for no other value; any other value is shown unchanged. */
  lemma RoleLabelRule(p: Record, side: Side)
    ensures var v := Resolve(p, NameAliases(side), JStr("?"));
      (v.JStr? && v.s in RoleLabels(side)) ==>
        TeamCell(p, side) == JStr("Equipo " + Str(Resolve(p, IdAliases(side), JStr("?"))))
    ensures var v := Resolve(p, NameAliases(side), JStr("?"));
      !(v.JStr? && v.s in RoleLabels(side)) ==> TeamCell(p, side) == v
  {
  }

  /** Once rendered with `str`, a team cell is still never its side's role label. */
  lemma ShownTeamIsNotALabel(p: Record, side: Side)
    ensures Str(TeamCell(p, side)) != RoleLabels(side)[0] && Str(TeamCell(p, side)) != RoleLabels(side)[1]
  {
    var cell := TeamCell(p, side);
    var shown := Str(cell);
    if !cell.JStr? {
      assert shown[0] != RoleLabels(side)[0][0] && shown[0] != RoleLabels(side)[1][0];
    }
  }

  /** An upper-case "LOCAL" is not a role label and is shown as it is. */
  lemma UpperCaseLocalIsKept(p: Record)
    requires "EquipoLocalNombre" in p && p["EquipoLocalNombre"] == JStr("LOCAL")
    ensures TeamCell(p, Home) == JStr("LOCAL")
  {
  }

  /** A home name "Local" with `EquipoLocalId` 7 is shown as "Equipo 7". */
  lemma LocalLabelUsesTeamId(p: Record)
    requires "EquipoLocalNombre" in p && p["EquipoLocalNombre"] == JStr("Local")
    requires "EquipoLocalId" in p && p["EquipoLocalId"] == JInt(7)
    ensures TeamCell(p, Home) == JStr("Equipo 7")
  {
  }

  /** A side's score column: its three keys, defaulting to 0. */
  function ScoreColumn(side: Side): Column
  {
    Column(ScoreAliases(side), JInt(0))
  }

  /** The score cell "{ml} - {mv}": each side shows its first truthy score
      key's value, or 0 when none of its keys is truthy. */
  function ScoreCell(p: Record): (cell: string)
    ensures exists ml, mv :: cell == ml + " - " + mv && ShowsScore(p, Home, ml) && ShowsScore(p, Away, mv)
    ensures NoneTruthy(p, ScoreAliases(Home)) ==> |cell| >= 4 && cell[..4] == "0 - "
    ensures NoneTruthy(p, ScoreAliases(Away)) ==> |cell| >= 4 && cell[|cell| - 4..] == " - 0"
  {
    var ml, mv := SideScore(p, Home), SideScore(p, Away);
    ZeroSideShows(ml, mv);
    ml + " - " + mv
  }

  /** `score` is what a side's half of the score cell should show: the first
      truthy score key's value, or "0" when none of the side's keys is truthy. */
  ghost predicate ShowsScore(p: Record, side: Side, score: string)
  {
    (NoneTruthy(p, ScoreAliases(side)) ==> score == "0") &&
    (forall k :: FirstTruthyAt(p, ScoreAliases(side), k) ==> score == Str(Get(p, ScoreAliases(side)[k])))
  }

  /** One side's half of the score cell. */
  function SideScore(p: Record, side: Side): (score: string)
    ensures ShowsScore(p, side, score)
    ensures NoneTruthy(p, ScoreAliases(side)) ==> score == "0"
  {
    assert Str(JInt(0)) == "0";
    Field(p, ScoreColumn(side))
  }

  /** A "0" half shows at its end of the joined score. */
  lemma ZeroSideShows(ml: string, mv: string)
    ensures ml == "0" ==> |ml + " - " + mv| >= 4 && (ml + " - " + mv)[..4] == "0 - "
    ensures mv == "0" ==> |ml + " - " + mv| >= 4 && (ml + " - " + mv)[|ml + " - " + mv| - 4..] == " - 0"
  {
    JoinEnds(ml, " - ", mv);
  }

  /** The first two parts of a three-way join are its prefix, the last two its suffix. */
  lemma JoinEnds<T>(a: seq<T>, b: seq<T>, c: seq<T>)
    ensures (a + b + c)[..|a| + |b|] == a + b
    ensures (a + b + c)[|a|..] == b + c
  {
    assert (a + b + c)[|a|..] == (a + (b + c))[|a|..];
  }

  /** A match without any score keys shows "0 - 0"; a 0 score is falsy and
      falls through to the next alias exactly like a missing one. */
  lemma MissingScoresShowZero(p: Record)
    requires forall a :: a in ScoreAliases(Home) + ScoreAliases(Away) ==> a !in p || !Truthy(p[a])
    ensures ScoreCell(p) == "0 - 0"
  {
  }

  /** One history row: position, formatted date, home, away, score.
      `fmtDate` stands for the ISO date reformatting (with its fallback to
      `str(fh)`), which is library code outside this model. */
  function MatchRow(n: nat, p: Record, fmtDate: JVal -> string): (row: seq<string>)
    ensures |row| == 5
    ensures (forall k :: 0 <= k < |row[0]| ==> '0' <= row[0][k] <= '9') && DigitsValue(row[0]) == n
    ensures |row[0]| > 1 ==> row[0][0] != '0'
    ensures row[1..] == [fmtDate(Resolve(p, ["FechaHora", "fechaHora"], JStr(""))),
                         Str(TeamCell(p, Home)), Str(TeamCell(p, Away)), ScoreCell(p)]
  {
    NatToStringRoundTrip(n);
    [NatToString(n), fmtDate(Resolve(p, ["FechaHora", "fechaHora"], JStr(""))),
     Str(TeamCell(p, Home)), Str(TeamCell(p, Away)), ScoreCell(p)]
  }

  /** The rows a loop that skips non-dict items produces: `row` builds each
      one from the item's 1-based position among ALL items and its dict. */
  function DictRows<R>(items: seq<JVal>, row: (nat, Record) -> R): (rows: seq<R>)
    ensures |rows| <= |items|
  {
    if items == [] then []
    else
      var n := |items|;
      DictRows(items[..n - 1], row) +
      (if items[n - 1].JObj? then [row(n, items[n - 1].fields)] else [])
  }

  /** The rows the history loop produces: non-dict items are skipped, but
      every row keeps its item's 1-based position. */
  function MatchRowsOf(items: seq<JVal>, fmtDate: JVal -> string): (rows: seq<seq<string>>)
    ensures |rows| <= |items|
  {
    DictRows(items, (n: nat, p: Record) => MatchRow(n, p, fmtDate))
  }

  /** The 0-based positions of the dict items, in order. */
  function DictPositions(items: seq<JVal>): seq<nat>
  {
    if items == [] then []
    else
      var n := |items|;
      DictPositions(items[..n - 1]) + (if items[n - 1].JObj? then [n - 1] else [])
  }

  /** The dict positions strictly increase, lie within the items, point at
      dicts, and include every dict item. */
  lemma {:induction false} DictPositionsExact(items: seq<JVal>)
    ensures var pos := DictPositions(items);
      |pos| <= |items| &&
      (forall k :: 0 <= k < |pos| ==> pos[k] < |items| && items[pos[k]].JObj?) &&
      (forall k, l :: 0 <= k < l < |pos| ==> pos[k] < pos[l]) &&
      (forall i :: 0 <= i < |items| && items[i].JObj? ==> i in pos)
  {
    if items != [] {
      var n := |items|;
      var front := items[..n - 1];
      DictPositionsExact(front);
      var pos, pos' := DictPositions(items), DictPositions(front);
      assert forall k :: 0 <= k < |pos'| ==> pos'[k] < n - 1 && items[pos'[k]] == front[pos'[k]];
      assert pos == pos' + (if items[n - 1].JObj? then [n - 1] else []);
      forall i | 0 <= i < n && items[i].JObj? ensures i in pos {
        if i < n - 1 {
          assert front[i] == items[i];
          assert i in pos';
        }
      }
    }
  }

  /** When every item is a dict, no item is skipped: one row per item. */
  lemma {:induction false} AllDictsGiveOneRowEach<R>(items: seq<JVal>, row: (nat, Record) -> R)
    requires forall k :: 0 <= k < |items| ==> items[k].JObj?
    ensures |DictRows(items, row)| == |items|
  {
    if items != [] {
      var front := items[..|items| - 1];
      assert forall k :: 0 <= k < |front| ==> front[k] == items[k];
      AllDictsGiveOneRowEach(front, row);
    }
  }

  /** When no item is a dict, every item is skipped and there are no rows. */
  lemma {:induction false} NoDictsGiveNoRows<R>(items: seq<JVal>, row: (nat, Record) -> R)
    requires forall k :: 0 <= k < |items| ==> !items[k].JObj?
    ensures DictRows(items, row) == []
  {
    if items != [] {
      var front := items[..|items| - 1];
      assert forall k :: 0 <= k < |front| ==> front[k] == items[k];
      NoDictsGiveNoRows(front, row);
    }
  }

  /** A string history payload is iterated character by character, and the
      loop skips every character: the report has no rows. */
  lemma StringHistoryHasNoRows(s: string, fmtDate: JVal -> string)
    ensures MatchItems(JStr(s)) == Ok(Characters(s))
    ensures MatchRowsOf(Characters(s), fmtDate) == []
  {
    NoDictsGiveNoRows(Characters(s), (n: nat, p: Record) => MatchRow(n, p, fmtDate));
  }

  /** One row per dict item. */
  lemma {:induction false} DictRowsCount<R>(items: seq<JVal>, row: (nat, Record) -> R)
    ensures |DictRows(items, row)| == |DictPositions(items)|
  {
    if items != [] {
      DictRowsCount(items[..|items| - 1], row);
    }
  }

  /** The row at index k is built from the dict item at the k-th dict position. */
  lemma {:induction false} DictRowAt<R>(items: seq<JVal>, row: (nat, Record) -> R, k: nat)
    requires k < |DictPositions(items)|
    ensures var pos := DictPositions(items);
      pos[k] < |items| && items[pos[k]].JObj? && k < |DictRows(items, row)| &&
      DictRows(items, row)[k] == row(pos[k] + 1, items[pos[k]].fields)
  {
    var n := |items|;
    var front := items[..n - 1];
    DictRowsCount(front, row);
    var pos' := DictPositions(front);
    if k < |pos'| {
      DictRowAt(front, row, k);
      assert items[pos'[k]] == front[pos'[k]];
    }
  }

  /** History row k shows the dict item at the k-th dict position, numbered
      by its own 1-based position among all items. */
  lemma MatchRowsAtDictPositions(items: seq<JVal>, fmtDate: JVal -> string)
    ensures var rows, pos := MatchRowsOf(items, fmtDate), DictPositions(items);
      |rows| == |pos| &&
      forall k :: 0 <= k < |pos| ==>
        pos[k] < |items| && items[pos[k]].JObj? &&
        rows[k] == MatchRow(pos[k] + 1, items[pos[k]].fields, fmtDate)
  {
    var row := (n: nat, p: Record) => MatchRow(n, p, fmtDate);
    DictRowsCount(items, row);
    forall k | 0 <= k < |DictPositions(items)|
      ensures var pos := DictPositions(items);
        pos[k] < |items| && items[pos[k]].JObj? &&
        MatchRowsOf(items, fmtDate)[k] == MatchRow(pos[k] + 1, items[pos[k]].fields, fmtDate)
    {
      DictRowAt(items, row, k);
    }
  }

  /** The history loop, with its `continue` on non-dict items. */
  method MatchRows(partidos: seq<JVal>, fmtDate: JVal -> string) returns (rows: seq<seq<string>>)
    ensures rows == MatchRowsOf(partidos, fmtDate)
  {
    rows := [];
    var i := 0;
    while i < |partidos|
      invariant 0 <= i <= |partidos|
      invariant rows == MatchRowsOf(partidos[..i], fmtDate)
    {
      var p := partidos[i];
      i := i + 1;
      assert partidos[..i][..i - 1] == partidos[..i - 1];
      if !p.JObj? {
        continue;
      }
      rows := rows + [MatchRow(i, p.fields, fmtDate)];
    }
    assert partidos[..i] == partidos;
  }

  // ----- Scouting report -----

  /** The player record `r.json() or {}`: a falsy payload is an empty dict;
      anything else that is not a dict fails at `.get`. */
  function ScoutRecord(payload: JVal): (r: Result<Record>)
    ensures !Truthy(payload) ==> r == Ok(map[])
    ensures payload.JObj? ==> r == Ok(payload.fields)
    ensures Truthy(payload) && !payload.JObj? ==> r == Err(NotADict)
  {
    if !Truthy(payload) then Ok(map[])
    else if payload.JObj? then Ok(payload.fields)
    else Err(NotADict)
  }

  const ScoutNombre := Column(["Nombre", "nombre"], JStr(""))
  const ScoutPosicion := Column(["Posicion", "posicion"], JStr(EnDash))
  const ScoutEdad := Column(["Edad", "edad"], JStr(EnDash))
  const ScoutEstatura := Column(["Estatura", "estatura"], JStr(EnDash))
  const ScoutEquipo := Column(["EquipoNombre", "equipoNombre", "EquipoId", "equipoId"], JStr(""))

  /** One `str(a or b or ... or dflt)` field: `str` of the first truthy
      alias value, or of the default when there is none. */
  function Field(rec: Record, column: Column): (f: string)
    ensures forall k :: FirstTruthyAt(rec, column.aliases, k) ==> f == Str(Get(rec, column.aliases[k]))
    ensures NoneTruthy(rec, column.aliases) ==> f == Str(column.dflt)
  {
    ResolveAtFirstTruthy(rec, column.aliases, column.dflt);
    Str(Resolve(rec, column.aliases, column.dflt))
  }

  /** The part of the subtitle before the team: name, bullet, position, bullet. */
  function ScoutLead(j: Record): string
  {
    Field(j, ScoutNombre) + " \U{2022} " + Field(j, ScoutPosicion) + " \U{2022} "
  }

  /** The scouting subtitle line: who the player is (name, position and team,
      separated by bullets), then age and height after bars. */
  function ScoutingSubtitle(j: Record): (sub: string)
    ensures var who := ScoutLead(j) + Field(j, ScoutEquipo);
      var stats := "  |  Edad: " + Field(j, ScoutEdad) + "  |  Estatura: " + Field(j, ScoutEstatura) + " cm";
      |sub| == |who| + |stats| && sub[..|who|] == who && sub[|who|..] == stats
  {
    var who := ScoutLead(j) + Field(j, ScoutEquipo);
    var stats := "  |  Edad: " + Field(j, ScoutEdad) + "  |  Estatura: " + Field(j, ScoutEstatura) + " cm";
    who + stats
  }

  /** The team shown falls back from the team's name to its id only when
      neither name spelling is truthy; the subtitle then shows the id right
      after the name and position. */
  lemma ScoutingTeamFallsBackToId(j: Record, id: int)
    requires "EquipoNombre" !in j && "equipoNombre" !in j
    requires "EquipoId" in j && j["EquipoId"] == JInt(id) && id != 0
    ensures Field(j, ScoutEquipo) == IntToString(id)
    ensures var at := |ScoutLead(j)|;
      |ScoutingSubtitle(j)| >= at + |IntToString(id)| &&
      ScoutingSubtitle(j)[at..at + |IntToString(id)|] == IntToString(id)
  {
    assert FirstTruthyAt(j, ScoutEquipo.aliases, 2);
    var stats := "  |  Edad: " + Field(j, ScoutEdad) + "  |  Estatura: " + Field(j, ScoutEstatura) + " cm";
    assert ScoutingSubtitle(j) == ScoutLead(j) + Field(j, ScoutEquipo) + stats;
    MiddleOfConcat(ScoutLead(j), Field(j, ScoutEquipo), stats);
  }

  /** The middle part of a three-way concatenation sits right after the first. */
  lemma MiddleOfConcat<T>(a: seq<T>, b: seq<T>, c: seq<T>)
    ensures (a + b + c)[|a|..|a| + |b|] == b
  {
    assert (a + b + c)[..|a| + |b|] == a + b;
  }

  /** Keys the subtitle's columns do not name have no effect on it. */
  lemma ScoutingSubtitleReadsOnlyAliases(j: Record, key: string, v: JVal)
    requires key !in ScoutNombre.aliases + ScoutPosicion.aliases + ScoutEquipo.aliases +
                     ScoutEdad.aliases + ScoutEstatura.aliases
    ensures ScoutingSubtitle(j[key := v]) == ScoutingSubtitle(j)
  {
    ResolveReadsOnlyAliases(j, ScoutNombre.aliases, ScoutNombre.dflt, key, v);
    ResolveReadsOnlyAliases(j, ScoutPosicion.aliases, ScoutPosicion.dflt, key, v);
    ResolveReadsOnlyAliases(j, ScoutEquipo.aliases, ScoutEquipo.dflt, key, v);
    ResolveReadsOnlyAliases(j, ScoutEdad.aliases, ScoutEdad.dflt, key, v);
    ResolveReadsOnlyAliases(j, ScoutEstatura.aliases, ScoutEstatura.dflt, key, v);
  }

  /** A player record without any keys gives the subtitle of defaults. */
  lemma EmptyScoutSubtitle()
    ensures ScoutingSubtitle(map[]) ==
      " \U{2022} " + EnDash + " \U{2022} " + "  |  Edad: " + EnDash + "  |  Estatura: " + EnDash + " cm"
  {
  }

  /** The metrics row: no statistics source is wired, so every metric is zero. */
  const ScoutingMetrics: seq<string> := ["0", "0", "0", "0", "0", "0.0", "0.0", "0.0", "0", "0", "0"]
}
