# Marcador Reportes: report-row logic

This project models the data layer of the league-report service (`app.py`). That layer sits between the upstream fetch and the PDF render. It turns loosely typed upstream JSON into the rows of each report:

- teams;
- players by team;
- match history;
- match roster;
- the scouting subtitle;
- the leaderboard's local fallback, which normalises players, sorts them by the chosen metric and splits them into a top-3 table and a ranking table.

It also models the upstream client's pure helpers:

- the forwarded `Authorization` header;
- the error raised for a failed upstream response;
- the match-history path fix.

Modules:

- `Json` (`json.dfy`):
  - JSON values and Python truthiness;
  - `Resolve`, the single generic form of the `a or b or ... or default` field lookups the reports use;
  - Python's `str()` of a value shown in a cell.
- `Upstream` (`upstream.dfy`): `_hdr`, `_ensure_ok` and the history path.
- `Reports` (`reports.dfy`):
  - which payload shapes each report accepts;
  - the per-report column alias tables;
  - the loops that build rows (teams, players, roster, match history with its skipped items);
  - the team slug and logo source;
  - the scouting subtitle.
- `Leaders` (`leaders.dfy`):
  - leaderboard normalisation;
  - the stable descending insertion sort;
  - the `[:3]` / `[3:13]` split;
  - the numbered table rows.

Where Python raises, the model returns `Err(...)` instead of narrowing the inputs. This covers five cases (`Json.Failure`): iterating something that is not iterable, calling `.get` on something that is not a dict, slicing something that cannot be sliced, sorting leaderboard metrics that are not integers, and the `HTTPException` that `_ensure_ok` raises for a failed upstream response. Operations that fetch data are left out. The model starts from the decoded JSON that the fetch returned.

A failed fetch is not simply a "non-2xx" response. The code tests `requests`' `Response.ok`, which is false only for statuses 400 to 599, and the model follows that rule (`Upstream.ResponseOk`).

## Model

| member | source | states |
|---|---|---|
| Json.Resolve | app.py:186-190 | An `or`-chain over aliases yields the default when no alias holds a truthy value. Otherwise the result is truthy. |
| Json.ResolveTakesFirstTruthy | app.py:242-247 | The resolved value is the value of the first alias whose value is truthy. |
| Json.ResolveFindsFirstTruthy | app.py:187-188 | If any alias holds a truthy value, a first truthy alias exists at or before it, and the result is its value, never the default. |
| Json.FalsyValueIsLikeMissingKey | app.py:244 | A stored falsy value (0, "", False, [], {}) resolves exactly like a missing key. |
| Json.ResolveReadsOnlyAliases | app.py:186-190 | Changing a key that is not among the aliases leaves the resolved value unchanged. |
| Json.NatToStringRoundTrip | app.py:241 | `str(i)` of a row number is a string of digits that reads back as `i`. |
| Json.IntToString | app.py:46 | `str(status)` is non-empty and starts with '-' exactly for negatives. The digits (after the '-' for a negative) read back as the absolute value. |
| Json.IntToStringCanonical | app.py:46 | `str(i)` has no leading zero: the first digit (after the '-' of a negative) is '0' exactly when i is 0. |
| Json.Str | app.py:186-191 | `str()` of a cell value: a string is shown as it is, an integer as its decimal text, a bool as "True"/"False" and None as "None". |
| Json.Characters | app.py:284-286 | Iterating a string visits its one-character strings, in order, one per character. |
| Upstream.Hdr | app.py:39-40 | The Authorization header is present iff a non-empty token was given. It carries that token, and no other header is produced. |
| Upstream.EnsureOk | app.py:42-46 | An ok response passes. Otherwise the failure carries the identical upstream status. |
| Upstream.DetailBody | app.py:45 | The detail body is a prefix of the response text with length min(300, \|text\|). |
| Upstream.EnsureOkDetailShape | app.py:45-46 | The failure detail is `url + " → " + str(status) + ": " + body`. The status digits read back as the status. The body is the prefix of the text of length min(300, \|text\|). |
| Upstream.NotFoundNamesPath | app.py:42-46 | An upstream 404 becomes a 404 whose detail starts with the failing url. |
| Upstream.HistoryPath | app.py:267-269 | The configured path is kept unless it is empty or ends in "historico", in which case the default path is used. The result never ends in "historico". |
| Reports.RecordList | app.py:154-157 | Iterating the payload and calling `.get` succeeds exactly for a list of dicts, "" or {}. The records are then the list's dicts, in order. |
| Reports.FalsyPayloadHasNoRecords | app.py:235 | After `r.json() or []`, a falsy payload gives no records. |
| Reports.CellTakesFirstTruthy | app.py:186-191 | A row cell shows `str` of its column's first truthy alias value. |
| Reports.CellFallsBackToDefault | app.py:188-190 | A cell with no truthy alias shows its column's default. |
| Reports.Field | app.py:368-372 | A single field shows `str` of its first truthy alias value, or of its default when no alias is truthy. |
| Reports.Slug | app.py:160 | The slug has the name's length. It has no spaces and no ASCII upper case. Each space becomes '_', each ASCII capital becomes its lower-case letter, and every other character is kept. |
| Reports.TeamLogo | app.py:157-177 | A truthy `LogoUrl`, or else a truthy `logoUrl`, is the logo source. The asset file is used exactly when both are falsy. |
| Reports.TeamAssetMatchesNameCell | app.py:160-177 | Without a logo url, the asset path is `assets/<slug of the name cell>.png`. |
| Reports.TeamRows | app.py:154-191 | Row k is team k's logo source and cells, with one row per team. |
| Reports.NumberedRow | app.py:240-241 | A numbered row's first cell is plain decimal digits with no leading zero that read back as its number, and the rest are the column cells. |
| Reports.PlayerRows | app.py:239-248 | Row k is numbered k+1 and shows player k through the player alias table. |
| Reports.RosterRows | app.py:339-345 | Row k is numbered k+1 and shows roster entry k through the roster alias table. |
| Reports.NamePrecedenceDiffers | app.py:187 | When `nombre` and `Nombre` are both truthy, the teams report shows `nombre` while the players report (app.py:242) shows `Nombre`. |
| Reports.RosterPrefersPascalPosition | app.py:344 | The roster shows `Posicion` over `posicion`. |
| Reports.ZeroNumberShowsDash | app.py:244 | A player with `Numero = 0` shows "–". |
| Reports.EmptyPlayerShowsDefaults | app.py:242-247 | A player with no keys shows "" and then "–" in every column. |
| Reports.MatchItems | app.py:278-280 | The history items are the `items` of a dict payload, the payload itself otherwise, and nothing for a falsy payload. A string (as the payload or as `items`) yields its one-character strings, which the loop then skips. The report fails exactly when the items are None, a bool or a number. |
| Reports.TeamCell | app.py:289-296 | A team cell is never a role label of its side, and it is never empty or falsy. |
| Reports.RoleLabelRule | app.py:289-296 | A resolved team value of exactly "Local"/"local" ("Visitante"/"visitante") becomes "Equipo " + the side's id (or "?"). Any other value is kept. |
| Reports.UpperCaseLocalIsKept | app.py:293 | "LOCAL" is not a role label and is shown unchanged. |
| Reports.LocalLabelUsesTeamId | app.py:293-294 | Home name "Local" with `EquipoLocalId` 7 shows "Equipo 7". |
| Reports.ScoreCell | app.py:297-311 | The cell is `ml + " - " + mv`. Each side shows `str` of its first truthy score key's value, or "0" when none of its keys is truthy. |
| Reports.SideScore | app.py:297-298 | A side's score shows `str` of the first truthy of its three score keys, or "0" when none is truthy. |
| Reports.MissingScoresShowZero | app.py:297-298 | Without truthy score keys the score cell is "0 - 0". |
| Reports.ShownTeamIsNotALabel | app.py:292-310 | After `str`, a team cell is still never its side's role label. A history row's home cell (`Str(TeamCell(p, Home))`, see `MatchRow`) is therefore never "Local"/"local", and its away cell never "Visitante"/"visitante". |
| Reports.MatchRow | app.py:306-312 | A history row has five cells: the number, in plain decimal digits with no leading zero that read back as the position, the formatted date, the home and away team cells, and the score cell. |
| Reports.DictRows | app.py:284-287 | The rows of a loop that skips non-dict items are never more than the items. |
| Reports.MatchRowsOf | app.py:284-312 | There are never more history rows than items. |
| Reports.AllDictsGiveOneRowEach | app.py:284-287 | When every item is a dict, none is skipped and there is one row per item. |
| Reports.NoDictsGiveNoRows | app.py:284-287 | When no item is a dict, every item is skipped and there are no rows. |
| Reports.StringHistoryHasNoRows | app.py:278-287 | A string history payload is iterated as its one-character strings, and the history has no rows. |
| Reports.DictRowsCount | app.py:284-287 | There is one row per dict item. |
| Reports.DictRowAt | app.py:284-287 | The row at index k is built from the dict item at the k-th dict position and that item's 1-based position. |
| Reports.DictPositionsExact | app.py:284-287 | The positions that get rows are exactly the dict items, strictly increasing, so there are at most as many rows as items. |
| Reports.MatchRowsAtDictPositions | app.py:284-312 | History row k shows the k-th dict item, numbered by that item's own 1-based position. |
| Reports.MatchRows | app.py:284-312 | The history loop with its `continue` produces exactly the specified rows. |
| Reports.ScoutRecord | app.py:366 | A falsy payload is an empty record, a dict is itself, and anything else fails at `.get`. |
| Reports.ScoutingSubtitle | app.py:368-389 | The subtitle is name • position • team, then "  \|  Edad: " with the age and "  \|  Estatura: " with the height, ending in " cm", each field in that place. |
| Reports.ScoutingTeamFallsBackToId | app.py:372-389 | With no team-name key and a non-zero `EquipoId`, the team field is that id, and the subtitle shows it right after the name and position. |
| Reports.ScoutingSubtitleReadsOnlyAliases | app.py:368-389 | Keys outside the five fields' aliases do not affect the subtitle. |
| Reports.EmptyScoutSubtitle | app.py:368-389 | A record with no keys gives the subtitle of defaults, with the bullet and bar separators. |
| Leaders.Capitalize | app.py:431 | `capitalize()` keeps the length, upper-cases the first character and lower-cases the rest (ASCII). |
| Leaders.MetricAliases | app.py:423-431 | The metric is read from "puntos" then "Puntos", or from "faltas" then "Faltas". |
| Leaders.Normalized | app.py:427-432 | A truthy `nombre` is kept, and otherwise the name is whatever `Nombre` holds, with no default. Team, position and valor each take their first truthy spelling, lower case first, or else their defaults "", "—" and 0. |
| Leaders.NormalizedPrefersLowerCase | app.py:428-431 | For either metric, a truthy lower-case key wins. The capitalized key is used when the lower-case one is missing or 0, and the value is 0 when both are. |
| Leaders.Normalize | app.py:425-432 | Entry k of the normalised list is player k's normalised entry. |
| Leaders.SortByValor | app.py:433 | The sorted list is a permutation of the normalised list, and adjacent entries never increase in valor. |
| Leaders.SortIsStable | app.py:433 | For every valor, the entries with that valor keep their upstream order. |
| Leaders.SortedDescPairwise | app.py:433 | Any earlier entry has at least the valor of any later one. |
| Leaders.SortByValorIsStableDescending | app.py:433 | The sort is a permutation, non-increasing and stable, all in one statement. |
| Leaders.SortExample | app.py:433 | A(10), B(20), C(20) sort to B, C, A. |
| Leaders.Fallback | app.py:418-433 | The fallback fails as the iteration does. It fails on non-integer metrics. Otherwise it returns the sorted normalised entries. |
| Leaders.Top3 | app.py:436 | `data[:3]` is the prefix of length min(3, n). |
| Leaders.Ranking | app.py:437 | `data[3:13]` holds entries 3 to 12 (0-based) when they exist. |
| Leaders.SplitCoversFirstThirteen | app.py:436-437 | Top 3 followed by the ranking is exactly the first min(13, n) entries. |
| Leaders.EndpointItems | app.py:412-413 | Endpoint data can be sliced exactly when it is a list or a string. A list gives its items, and a string its one-character strings. Those are not dicts, so `LeaderTables` fails on a non-empty string. |
| Leaders.RankRow | app.py:455 | A table row has five cells and its rank first. A stored field is shown as it is, even when falsy. The defaults "", "", "—" and 0 replace only missing keys. |
| Leaders.RankRowShowsLeader | app.py:455 | A normalised entry's row shows its rank and its four fields unchanged. |
| Leaders.RankRows | app.py:453-455 | Table rows are numbered from the start rank. A non-dict entry fails the table. |
| Leaders.LeaderTables | app.py:452-473 | Top-3 rows are numbered 1..3 and ranking rows from 4, each showing the entry at its rank. The tables fail exactly when one of the first 13 entries is not a dict. |
| Leaders.FallbackTablesShowEntries | app.py:454-455 | On the fallback path, every table row shows its leader's fields. |

## Left out

- Network I/O is not modelled. This covers the `requests.get` calls, their timeouts, and the choice between the leaders endpoint and the fallback (the `status_code == 200` test and the `try`/`except`). The model starts from the decoded payloads.
- FastAPI routing, query and header parsing, the `Response` and `Content-Disposition` construction, and `os.getenv` configuration are framework plumbing.
- ReportLab layout and the PDF bytes (`_pdf_bytes` and the styled tables) are a third-party library. The model stops at the rows handed to it.
- Logo fetching, image decoding and the asset-file existence test are not modelled. The model only records which source a team's logo is taken from (`Reports.LogoSource`). Whether it shows an image or "Sin logo" depends on I/O.
- The ISO date reformatting of the history date cell, with its fallback to the raw string, is library code. It is a function parameter (`fmtDate`) of the history rows.
- The scouting statistics are hard-coded zeros with no source. They appear as the constant `Reports.ScoutingMetrics`, without modelling float formatting.
- JSON numbers are integers. Floats are not modelled.
- `Json.Str` renders a list or dict cell as a placeholder, where Python would render its repr.
- Case mapping (`lower()` in the slug, `capitalize()` for the metric key) is ASCII only. Python's full Unicode mapping is not modelled.
- `Reports.MatchItems` treats a dict `items` payload as having no items. In the source, iterating it visits its keys, which are strings and are all skipped, so the rows are the same. Only the numbering of those skipped keys is not represented.
- Leaders.Fallback: reports `NonIntegerMetric` as soon as any metric is not an integer or bool. Python would sort without error a one-entry list, or any list whose metrics all compare with one another (all strings, all lists, and so on).
