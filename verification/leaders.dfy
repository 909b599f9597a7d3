/** The leaderboard report's local path: players normalised into leader
    entries, sorted by the chosen metric from highest to lowest (ties keep
    their upstream order), and cut into a top-3 table and a ranking table. */
module Leaders {
  import opened Json
  import Reports

  const EmDash := "\U{2014}"

  /** The metric the leaderboard ranks by. */
  datatype Metric = Puntos | Faltas

  /** The player field the metric is read from. */
  function FieldName(metric: Metric): string
  {
    if metric == Puntos then "puntos" else "faltas"
  }

  function AsciiUpper(c: char): char
  {
    if 'a' <= c <= 'z' then (c as int - 32) as char else c
  }

  /** `s.capitalize()` with ASCII case mapping: first letter upper case, the rest lower case. */
  function Capitalize(s: string): (r: string)
    ensures |r| == |s|
    ensures s != [] ==> r[0] == AsciiUpper(s[0])
    ensures forall k :: 1 <= k < |s| ==> r[k] == Reports.AsciiLower(s[k])
  {
    if s == [] then [] else [AsciiUpper(s[0])] + seq(|s| - 1, k requires 0 <= k < |s| - 1 => Reports.AsciiLower(s[k + 1]))
  }

  /** The keys tried for the metric: the field, then its capitalized spelling. */
  function MetricAliases(metric: Metric): (aliases: seq<string>)
    ensures metric == Puntos ==> aliases == ["puntos", "Puntos"]
    ensures metric == Faltas ==> aliases == ["faltas", "Faltas"]
  {
    CapitalizedFieldNames();
    var field := FieldName(metric);
    [field, Capitalize(field)]
  }

  lemma CapitalizedFieldNames()
    ensures Capitalize("puntos") == "Puntos" && Capitalize("faltas") == "Faltas"
  {
    var p, f := Capitalize("puntos"), Capitalize("faltas");
    assert p[1] == 'u' && p[2] == 'n' && p[3] == 't' && p[4] == 'o' && p[5] == 's';
    assert f[1] == 'a' && f[2] == 'l' && f[3] == 't' && f[4] == 'a' && f[5] == 's';
  }

  const TeamNameAliases: seq<string> := ["equipoNombre", "EquipoNombre"]
  const PositionAliases: seq<string> := ["posicion", "Posicion"]

  /** A normalised player: the four keys of the dict the fallback builds. */
  datatype Leader = Leader(nombre: JVal, equipoNombre: JVal, posicion: JVal, valor: JVal)

  /** One player's normalised entry. The name has no default: when both
      spellings are falsy it is whatever `Nombre` holds (None when absent).
      Team, position and valor take their first truthy spelling, lower case
      first, and otherwise their defaults "", "—" and 0. */
  function Normalized(j: Record, metric: Metric): (l: Leader)
    ensures Truthy(Get(j, "nombre")) ==> l.nombre == j["nombre"]
    ensures !Truthy(Get(j, "nombre")) ==> l.nombre == Get(j, "Nombre")
    ensures forall k :: FirstTruthyAt(j, TeamNameAliases, k) ==>
      l.equipoNombre == Get(j, TeamNameAliases[k])
    ensures NoneTruthy(j, TeamNameAliases) ==> l.equipoNombre == JStr("")
    ensures forall k :: FirstTruthyAt(j, PositionAliases, k) ==>
      l.posicion == Get(j, PositionAliases[k])
    ensures NoneTruthy(j, PositionAliases) ==> l.posicion == JStr(EmDash)
    ensures forall k :: FirstTruthyAt(j, MetricAliases(metric), k) ==> l.valor == Get(j, MetricAliases(metric)[k])
    ensures NoneTruthy(j, MetricAliases(metric)) ==> l.valor == JInt(0)
  {
    ResolveAtFirstTruthy(j, TeamNameAliases, JStr(""));
    ResolveAtFirstTruthy(j, PositionAliases, JStr(EmDash));
    ResolveAtFirstTruthy(j, MetricAliases(metric), JInt(0));
    Leader(
      Resolve(j, ["nombre"], Get(j, "Nombre")),
      Resolve(j, TeamNameAliases, JStr("")),
      Resolve(j, PositionAliases, JStr(EmDash)),
      Resolve(j, MetricAliases(metric), JInt(0)))
  }

  /** Every player's normalised entry, in upstream order. */
  function NormalizedAll(players: seq<Record>, metric: Metric): (norm: seq<Leader>)
    ensures |norm| == |players|
  {
    seq(|players|, k requires 0 <= k < |players| => Normalized(players[k], metric))
  }

  /** The leaderboard keeps a truthy lower-case `nombre` and metric key, falls
      back to the capitalized metric key (`Puntos`, `Faltas`) when the
      lower-case one is missing or 0, and shows 0 when both are. */
  lemma NormalizedPrefersLowerCase(j: Record, metric: Metric)
    ensures Truthy(Get(j, "nombre")) ==> Normalized(j, metric).nombre == j["nombre"]
    ensures Truthy(Get(j, FieldName(metric))) ==> Normalized(j, metric).valor == j[FieldName(metric)]
    ensures var upper := Capitalize(FieldName(metric));
      !Truthy(Get(j, FieldName(metric))) && Truthy(Get(j, upper)) ==> Normalized(j, metric).valor == j[upper]
    ensures !Truthy(Get(j, FieldName(metric))) && !Truthy(Get(j, Capitalize(FieldName(metric)))) ==>
      Normalized(j, metric).valor == JInt(0)
  {
    CapitalizedFieldNames();
  }

  /** The normalisation loop. */
  method Normalize(players: seq<Record>, metric: Metric) returns (norm: seq<Leader>)
    ensures norm == NormalizedAll(players, metric)
  {
    ghost var all := NormalizedAll(players, metric);
    norm := [];
    for i := 0 to |players|
      invariant norm == all[..i]
    {
      var entry := Normalized(players[i], metric);
      assert entry == all[i];
      PrefixGrows(all, i);
      norm := norm + [entry];
    }
    assert all[..|players|] == all;
  }

  /** A prefix extended by the next element is the next prefix. */
  lemma PrefixGrows<T>(s: seq<T>, i: nat)
    requires i < |s|
    ensures s[..i] + [s[i]] == s[..i + 1]
  {
    assert s[..i + 1] == s[..i] + s[i..i + 1];
  }

  // ----- Sorting by valor, highest first, stable -----

  /** Metric values that order as integers (a bool is an int in Python). */
  predicate IntegerMetric(v: JVal)
  {
    v.JInt? || v.JBool?
  }

  /** The sort key: the integer a metric value stands for. */
  function Key(l: Leader): int
  {
    match l.valor
    case JInt(i) => i
    case JBool(b) => if b then 1 else 0
    case _ => 0
  }

  /** Adjacent entries never increase in key. */
  predicate SortedDesc(s: seq<Leader>)
  {
    forall i :: 0 < i < |s| ==> Key(s[i - 1]) >= Key(s[i])
  }

  /** The entries of `s` whose key is `v`, in order. */
  function WithKey(s: seq<Leader>, v: int): seq<Leader>
  {
    if s == [] then []
    else (if Key(s[0]) == v then [s[0]] else []) + WithKey(s[1..], v)
  }

  /** Place `x` after the entries with a larger key and before the rest. */
  function Insert(x: Leader, ys: seq<Leader>): seq<Leader>
  {
    if ys == [] || Key(ys[0]) <= Key(x) then [x] + ys
    else [ys[0]] + Insert(x, ys[1..])
  }

  /** `sorted(norm, key=lambda x: x["valor"], reverse=True)`, as an insertion
      sort: a permutation of the input whose valor never increases. */
  function SortByValor(xs: seq<Leader>): (sorted: seq<Leader>)
    ensures |sorted| == |xs|
    ensures multiset(sorted) == multiset(xs)
    ensures SortedDesc(sorted)
  {
    if xs == [] then []
    else
      var x, rest := xs[0], SortByValor(xs[1..]);
      InsertPermutes(x, rest);
      InsertKeepsSorted(x, rest);
      assert xs == [x] + xs[1..];
      assert multiset(xs) == multiset(xs[1..]) + multiset{x};
      Insert(x, rest)
  }

  lemma {:induction false} InsertPermutes(x: Leader, ys: seq<Leader>)
    ensures multiset(Insert(x, ys)) == multiset(ys) + multiset{x}
    ensures |Insert(x, ys)| == |ys| + 1
  {
    if ys != [] && Key(ys[0]) > Key(x) {
      InsertPermutes(x, ys[1..]);
      assert ys == [ys[0]] + ys[1..];
    }
  }

  lemma {:induction false} InsertKeepsSorted(x: Leader, ys: seq<Leader>)
    requires SortedDesc(ys)
    ensures SortedDesc(Insert(x, ys))
    ensures Insert(x, ys)[0] == x || Insert(x, ys)[0] == ys[0]
  {
    if ys != [] && Key(ys[0]) > Key(x) {
      var tail := ys[1..];
      assert SortedDesc(tail) by {
        forall i | 0 < i < |tail| ensures Key(tail[i - 1]) >= Key(tail[i]) {
          assert tail[i - 1] == ys[i] && tail[i] == ys[i + 1];
        }
      }
      InsertKeepsSorted(x, tail);
      var rest := Insert(x, tail);
      assert Key(ys[0]) >= Key(rest[0]);
      var r := [ys[0]] + rest;
      forall i | 0 < i < |r| ensures Key(r[i - 1]) >= Key(r[i]) {
        if i > 1 {
          assert r[i - 1] == rest[i - 2] && r[i] == rest[i - 1];
        }
      }
    }
  }

  lemma {:induction false} InsertKeepsTies(x: Leader, ys: seq<Leader>, v: int)
    ensures WithKey(Insert(x, ys), v) == (if Key(x) == v then [x] else []) + WithKey(ys, v)
  {
    if ys == [] || Key(ys[0]) <= Key(x) {
      assert ([x] + ys)[1..] == ys;
      assert WithKey([x] + ys, v) == (if Key(x) == v then [x] else []) + WithKey(ys, v);
    } else {
      var tail := ys[1..];
      InsertKeepsTies(x, tail, v);
      var rest := Insert(x, tail);
      assert Insert(x, ys) == [ys[0]] + rest;
      assert ([ys[0]] + rest)[1..] == rest;
      var head := if Key(ys[0]) == v then [ys[0]] else [];
      assert WithKey(ys, v) == head + WithKey(tail, v);
      assert WithKey([ys[0]] + rest, v) == head + WithKey(rest, v);
    }
  }

  /** Stability: the entries with any one valor appear in the sorted list in
      exactly their upstream order. */
  lemma {:induction false} SortIsStable(xs: seq<Leader>, v: int)
    ensures WithKey(SortByValor(xs), v) == WithKey(xs, v)
  {
    if xs != [] {
      SortIsStable(xs[1..], v);
      InsertKeepsTies(xs[0], SortByValor(xs[1..]), v);
    }
  }

  /** Any two positions of the sorted list are in non-increasing valor order. */
  lemma {:induction false} SortedDescPairwise(s: seq<Leader>)
    requires SortedDesc(s)
    ensures forall i, j :: 0 <= i < j < |s| ==> Key(s[i]) >= Key(s[j])
  {
    if s != [] {
      var tail := s[1..];
      assert SortedDesc(tail) by {
        forall i | 0 < i < |tail| ensures Key(tail[i - 1]) >= Key(tail[i]) {
          assert tail[i - 1] == s[i] && tail[i] == s[i + 1];
        }
      }
      SortedDescPairwise(tail);
      forall i, j | 0 <= i < j < |s| ensures Key(s[i]) >= Key(s[j]) {
        if i > 0 {
          assert s[i] == tail[i - 1] && s[j] == tail[j - 1];
        } else if j > 1 {
          assert s[1] == tail[0] && s[j] == tail[j - 1];
        }
      }
    }
  }

  /** The fallback's sort in one statement: the result is a permutation of
      the input, no entry has a larger valor than any entry before it, and
      entries with equal valor keep their upstream order. */
  lemma SortByValorIsStableDescending(xs: seq<Leader>)
    ensures multiset(SortByValor(xs)) == multiset(xs)
    ensures forall i, j :: 0 <= i < j < |SortByValor(xs)| ==> Key(SortByValor(xs)[i]) >= Key(SortByValor(xs)[j])
    ensures forall v :: WithKey(SortByValor(xs), v) == WithKey(xs, v)
  {
    SortedDescPairwise(SortByValor(xs));
    forall v ensures WithKey(SortByValor(xs), v) == WithKey(xs, v) {
      SortIsStable(xs, v);
    }
  }

  /** Players A (10), B (20), C (20) sorted by puntos come out as B, C, A. */
  lemma SortExample(a: JVal, b: JVal, c: JVal)
    ensures var la, lb, lc := Leader(a, JStr(""), JStr(EmDash), JInt(10)),
                              Leader(b, JStr(""), JStr(EmDash), JInt(20)),
                              Leader(c, JStr(""), JStr(EmDash), JInt(20));
      SortByValor([la, lb, lc]) == [lb, lc, la]
  {
    var la, lb, lc := Leader(a, JStr(""), JStr(EmDash), JInt(10)),
                      Leader(b, JStr(""), JStr(EmDash), JInt(20)),
                      Leader(c, JStr(""), JStr(EmDash), JInt(20));
    assert Key(la) == 10 && Key(lb) == 20 && Key(lc) == 20;
    assert [la, lb, lc][1..] == [lb, lc];
    assert [lb, lc][1..] == [lc];
    assert SortByValor([lc]) == [lc];
    assert SortByValor([lb, lc]) == Insert(lb, [lc]) == [lb, lc];
    assert Insert(la, [lc]) == [lc] + Insert(la, []) == [lc, la];
    assert Insert(la, [lb, lc]) == [lb] + Insert(la, [lc]) == [lb, lc, la];
    assert SortByValor([la, lb, lc]) == Insert(la, SortByValor([lb, lc]));
  }

  /** The fallback path on the fetched player list: every player must be a
      dict (`players` is iterated without an `or []`), the metrics must be
      integers, and the result is the stable descending sort of the
      normalised entries. */
  method Fallback(players: JVal, metric: Metric) returns (r: Result<seq<Leader>>)
    ensures Reports.RecordList(players).Err? ==> r == Err(Reports.RecordList(players).failure)
    ensures Reports.RecordList(players).Ok? ==>
      var norm := NormalizedAll(Reports.RecordList(players).value, metric);
      (r.Ok? <==> forall k :: 0 <= k < |norm| ==> IntegerMetric(norm[k].valor)) &&
      (r.Ok? ==> r.value == SortByValor(norm))
  {
    var recs := Reports.RecordList(players);
    if recs.Err? {
      return Err(recs.failure);
    }
    var norm := Normalize(recs.value, metric);
    if exists k :: 0 <= k < |norm| && !IntegerMetric(norm[k].valor) {
      return Err(NonIntegerMetric);
    }
    r := Ok(SortByValor(norm));
  }

  // ----- Top 3 and ranking -----

  function Min(a: int, b: int): int { if a < b then a else b }

  /** `data[:3]`. */
  function Top3<T>(data: seq<T>): (top: seq<T>)
    ensures |top| == Min(3, |data|)
    ensures top <= data
  {
    data[..Min(3, |data|)]
  }

  /** `data[3:13]`: the entries after the top 3, at most ten of them. */
  function Ranking<T>(data: seq<T>): (rest: seq<T>)
    ensures |rest| == if |data| <= 3 then 0 else Min(10, |data| - 3)
    ensures forall k :: 0 <= k < |rest| ==> rest[k] == data[3 + k]
  {
    data[Min(3, |data|)..Min(13, |data|)]
  }

  /** The two tables together show exactly the first thirteen entries, in
      order; entries from the fourteenth on appear in neither. */
  lemma SplitCoversFirstThirteen<T>(data: seq<T>)
    ensures Top3(data) + Ranking(data) == data[..Min(13, |data|)]
  {
  }

  /** The dict each normalised entry is. */
  function LeaderRecord(l: Leader): Record
  {
    map["nombre" := l.nombre, "equipoNombre" := l.equipoNombre, "posicion" := l.posicion, "valor" := l.valor]
  }

  /** The fallback's data, as the JSON items the tables read. */
  function FallbackItems(data: seq<Leader>): (items: seq<JVal>)
    ensures |items| == |data|
    ensures forall k :: 0 <= k < |items| ==> items[k] == JObj(LeaderRecord(data[k]))
  {
    seq(|data|, k requires 0 <= k < |data| => JObj(LeaderRecord(data[k])))
  }

  /** The data from the leaders endpoint, as slicing and iterating see it: a
      list as it is, a string as its characters; anything else fails at the slice. */
  function EndpointItems(data: JVal): (r: Result<seq<JVal>>)
    ensures data.JList? ==> r == Ok(data.items)
    ensures r.Ok? <==> data.JList? || data.JStr?
    ensures data.JStr? ==> r == Ok(Characters(data.s))
  {
    match data
    case JList(xs) => Ok(xs)
    case JStr(s) => Ok(Characters(s))
    case _ => Err(NotSliceable)
  }

  /** A table row `[i, p.get("nombre",""), p.get("equipoNombre",""),
      p.get("posicion","—"), p.get("valor",0)]`: the defaults replace only
      missing keys. */
  function RankRow(i: int, p: Record): (row: seq<JVal>)
    ensures |row| == 5 && row[0] == JInt(i)
    ensures "nombre" in p ==> row[1] == p["nombre"]
    ensures "nombre" !in p ==> row[1] == JStr("")
    ensures "equipoNombre" in p ==> row[2] == p["equipoNombre"]
    ensures "equipoNombre" !in p ==> row[2] == JStr("")
    ensures "posicion" in p ==> row[3] == p["posicion"]
    ensures "posicion" !in p ==> row[3] == JStr(EmDash)
    ensures "valor" in p ==> row[4] == p["valor"]
    ensures "valor" !in p ==> row[4] == JInt(0)
  {
    [JInt(i), GetOr(p, "nombre", JStr("")), GetOr(p, "equipoNombre", JStr("")),
     GetOr(p, "posicion", JStr(EmDash)), GetOr(p, "valor", JInt(0))]
  }

  /** A normalised entry is shown field for field, even a None name. */
  lemma RankRowShowsLeader(i: int, l: Leader)
    ensures RankRow(i, LeaderRecord(l)) == [JInt(i), l.nombre, l.equipoNombre, l.posicion, l.valor]
  {
  }

  /** The loop filling one table: entries numbered from `start`; an entry
      that is not a dict fails the report. */
  method RankRows(entries: seq<JVal>, start: int) returns (r: Result<seq<seq<JVal>>>)
    ensures r.Ok? <==> forall k :: 0 <= k < |entries| ==> entries[k].JObj?
    ensures r.Err? ==> r.failure == NotADict
    ensures r.Ok? ==> |r.value| == |entries|
    ensures r.Ok? ==> forall k :: 0 <= k < |entries| ==> r.value[k] == RankRow(start + k, entries[k].fields)
  {
    var rows := [];
    for i := 0 to |entries|
      invariant |rows| == i
      invariant forall k :: 0 <= k < i ==> entries[k].JObj? && rows[k] == RankRow(start + k, entries[k].fields)
    {
      if !entries[i].JObj? {
        return Err(NotADict);
      }
      rows := rows + [RankRow(start + i, entries[i].fields)];
    }
    r := Ok(rows);
  }

  /** Both tables of the report: the top-3 rows numbered 1 to 3 and the
      ranking rows numbered from 4, each showing the entry at its rank. */
  method LeaderTables(data: seq<JVal>) returns (r: Result<(seq<seq<JVal>>, seq<seq<JVal>>)>)
    ensures r.Ok? <==> forall k :: 0 <= k < Min(13, |data|) ==> data[k].JObj?
    ensures r.Ok? ==>
      var (top, ranking) := r.value;
      |top| == Min(3, |data|) && |ranking| == |Ranking(data)| &&
      (forall k :: 0 <= k < |top| ==> top[k] == RankRow(k + 1, data[k].fields) && top[k][0] == JInt(k + 1)) &&
      (forall k :: 0 <= k < |ranking| ==> ranking[k] == RankRow(k + 4, data[k + 3].fields) && ranking[k][0] == JInt(k + 4))
  {
    var top := RankRows(Top3(data), 1);
    if top.Err? {
      return Err(top.failure);
    }
    var ranking := RankRows(Ranking(data), 4);
    if ranking.Err? {
      assert exists k :: 0 <= k < |Ranking(data)| && !Ranking(data)[k].JObj?;
      return Err(ranking.failure);
    }
    forall k | 0 <= k < Min(13, |data|) ensures data[k].JObj? {
      if k >= 3 {
        assert Ranking(data)[k - 3] == data[k];
      }
    }
    r := Ok((top.value, ranking.value));
  }

  /** On the fallback path every entry is a dict, so the tables never fail,
      and each row shows the entry at that rank field for field. */
  lemma FallbackTablesShowEntries(data: seq<Leader>, k: nat)
    requires k < Min(13, |data|)
    ensures FallbackItems(data)[k].JObj?
    ensures RankRow(k + 1, FallbackItems(data)[k].fields) ==
      [JInt(k + 1), data[k].nombre, data[k].equipoNombre, data[k].posicion, data[k].valor]
  {
  }
}
