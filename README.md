# Basketball training camp: validated entities over a two-table store

This project is a Dafny model of a small text-menu program that tracks
basketball players and their game scores in a local SQLite database.

- **Entity layer** (`lib/models.py`, modelled in `models.dfy`). Validating setters on
  `Attributes`, `Skills`, `Position`, `Player` and `Game`. Each setter checks a
  value's type, then its range, and raises `ValueError` with a fixed message.
  A `Player` also keeps an in-memory list of games.
- **Store** (`database.dfy`). The two tables `players` and `games` are sequences
  of rows held in the `Store` class. Each SQL statement of the program compares
  columns with `=`. So a `SELECT` is a filter in table order, a `DELETE` keeps
  the rows that filter rejects, an `INSERT` appends, and `fetchone` takes the
  head of a result.
- **Menu controller** (`lib/cli.py`, modelled in `cli.dfy`). One method per leaf
  action (create, delete, list, view, find) and one dispatch step per menu,
  all on the `Cli` class, which owns the connection.
- **Outcome types** (`results.dfy`). A `Result` replaces the exceptions. The
  module also holds the "first error wins" reading of an ordered series of
  checks, and a comprehension that raises at its first bad element.

A Python value passed to a setter is the tagged union
`Value = VInt | VReal | VStr | VGame | VOther`. This lets the type checks be
stated: `isinstance(v, (int, float))` is `VInt? || VReal?`. Player names are
not unique in the schema, so the model allows duplicate names. A player
delete removes every row with that name, and a lookup returns the first one.
Games refer to players by name only, and no referential integrity is assumed.

The players menu offers "1. Create Player" (`lib/cli.py:54`), and
`create_player` ends by printing that the player was "created successfully"
(`lib/cli.py:86`). The code at `lib/cli.py:84` cannot get there (see
Findings). The model follows the code in `Cli.Cli.CreatePlayerAsWritten`.
The menu step uses the corrected `Cli.Cli.CreatePlayer`.

Each leaf action of the menus is a method of `Cli.Cli` that is proved equal
to a function of the tables (`Cli.PlayerCreation`, `Cli.PlayersListing`,
...). Those functions carry what the action promises. The menu steps state,
choice by choice, which of them runs.

The sqlite3 module binds a Python `int` parameter as a signed 64-bit SQLite
INTEGER and raises `OverflowError` for one outside that range, before the
statement runs. The `except ValueError` in `create_game` does not catch it.
The model carries this limit (`Database.MaxSqliteInt`) into both
`save_to_db` methods and `create_game`.

## Model

| member | source | states |
|---|---|---|
| `Models.CheckPositive` | lib/models.py:13-18 | accepted iff an int or float and > 0 (so 0 is rejected); the value is kept as given; a non-number gets the "must be a number" message before any range check |
| `Models.Attributes.SetHeight` | lib/models.py:12-18 | the height setter accepts iff the value is a positive number; on success the height is the value and the weight is unchanged; otherwise the exact height message, type message first |
| `Models.Attributes.SetWeight` | lib/models.py:24-30 | the same for weight, leaving the height unchanged |
| `Models.NewAttributes` | lib/models.py:4-6 | succeeds iff both are positive numbers and keeps both exactly; a bad height is reported before a bad weight |
| `Models.CheckSkill` | lib/models.py:43-48 | accepted iff an int with 0 <= v <= 100 (0 and 100 in, -1 and 101 out); a non-int gets the "must be an integer" message |
| `Models.Skills.SetShooting` | lib/models.py:42-48 | the shooting setter accepts iff the value is an int in [0,100]; on success only the shooting rating changes; otherwise the exact shooting message |
| `Models.Skills.SetPassing` | lib/models.py:54-60 | the same for passing, leaving the shooting rating unchanged |
| `Models.NewSkills` | lib/models.py:34-36 | succeeds iff both ratings are ints in [0,100] and keeps them; shooting is reported before passing |
| `Models.CheckText` | lib/models.py:93-98 | accepted iff a str of length > 0, kept as given; a non-str gets the "must be a string" message, the empty string the "greater than zero characters" one |
| `Models.NewPosition` | lib/models.py:64-77 | the position name is accepted iff a non-empty str, with the exact position messages |
| `Models.NewPlayer` | lib/models.py:81-85 | succeeds iff all six fields are valid, and then every field is exactly the input; otherwise the error is the first failing field in the order name, position, height, weight, shooting, passing |
| `Models.Player.New` | lib/models.py:81-86 | the constructor gives a fresh valid player with an empty game list and the fields of `NewPlayer`, or that function's error |
| `Models.Player.constructor` | lib/models.py:86 | a player built from valid fields has exactly those fields and no games |
| `Models.Player.SetName` | lib/models.py:92-98 | the name setter replaces the name iff the value is a non-empty str, otherwise reports the name message; nothing else changes and the player stays valid |
| `Models.Player.AddGame` | lib/models.py:104-106 | appends a reference to the given `Game` and ignores anything else; the score list grows by that game's score; the fields are unchanged |
| `Models.Player.AllGameScores` | lib/models.py:108-109 | the current score of every game object in the list, one per game, in insertion order |
| `Models.SharedGameScores` | lib/models.py:104-109 | the list keeps the game objects themselves: a score set through a game after `add_game` is what `all_game_scores` then returns ([10] before, [25] after) |
| `Models.Player.SaveToDb` | lib/models.py:111-116 | appends exactly this player's row to the players table iff every `int` field fits a SQLite INTEGER; otherwise reports the `OverflowError` and writes nothing; the games table is unchanged |
| `Models.Player.DeleteFromDb` | lib/models.py:118-121 | the players table loses exactly the rows with this name and the games table exactly the rows with this player name (manual cascade); afterwards neither lookup finds anything |
| `Models.PlayerFields.Row` | lib/models.py:113-116 | the inserted row carries each field, with height and weight as their numeric values |
| `Models.PlayerFields.Stored` | lib/cli.py:19-20 | what the REAL columns give back: same name, position and skills, with the same numeric height and weight, still valid, and always bindable |
| `Models.PlayerFromRow` | lib/models.py:127 | a players row reads back iff every column is in range; the player read back is valid, bindable, and saves as the same row |
| `Models.PlayersFromRows` | lib/models.py:124-127 | `get_all_from_db` succeeds iff every row reads back, giving one valid player per row, in order, each saving as its row; otherwise the error of the first bad row |
| `Models.PlayerRowRoundTrip` | lib/models.py:123-127 | a saved valid player reads back as its stored fields, and re-saving those gives the same row |
| `Results.MapAllAppend` | lib/models.py:124-127 | inserting a row extends `get_all_from_db`'s result by that row's entity, or makes it raise with that row's error; a table that already raises keeps raising with the same error |
| `Models.CheckScore` | lib/models.py:156-161 | accepted iff an int >= 0; a non-int gets the "must be an integer" message |
| `Models.Game.New` | lib/models.py:134-137 | the constructor gives a fresh valid game with the fields of `NewGame`, or that function's error |
| `Models.Game.constructor` | lib/models.py:134-137 | a game built from valid fields has exactly those fields |
| `Models.Game.SetDate` | lib/models.py:143-149 | the date setter updates the game in place iff the value is a non-empty str, otherwise reports the date message; the player name and score never change, and a valid game stays valid |
| `Models.Game.SetScore` | lib/models.py:155-161 | the score setter updates the game in place iff the value is an int >= 0, otherwise reports the score message; date and player name never change, and a valid game stays valid |
| `Models.NewGame` | lib/models.py:134-137 | succeeds iff the date is a non-empty str and the score an int >= 0; the player name is kept with no check; a bad date is reported before a bad score |
| `Models.GameFields.Row` | lib/models.py:166-168 | the inserted row carries date, player name and score |
| `Models.Game.SaveToDb` | lib/models.py:163-168 | appends exactly this game's row iff its score fits a SQLite INTEGER; otherwise reports the `OverflowError` and writes nothing; the players table is unchanged |
| `Models.Game.DeleteFromDb` | lib/models.py:170-172 | removes exactly the games matching both date and player name; the players table is unchanged |
| `Models.GameFromRow` | lib/models.py:178 | a games row reads back iff its date is non-empty and its score >= 0, otherwise with the date or score message; the game read back is valid and saves as the same row |
| `Models.GamesFromRows` | lib/models.py:174-178 | `get_all_from_db` succeeds iff every row has a non-empty date and a score >= 0, giving one valid game per row, in order, each saving as its row; otherwise the error of the first bad row |
| `Models.GameRowRoundTrip` | lib/models.py:163-178 | a saved valid game reads back unchanged |
| `Results.MapAll` | lib/models.py:174-178 | the comprehension succeeds iff every element does, giving one result per row in order; otherwise the error is that of the first failing row |
| `Results.FirstError` | lib/models.py:81-85 | an ordered series of checks reports nothing iff every check passes, otherwise the error of the first failing check |
| `Results.FirstErrorAt` | lib/models.py:81-85 | if check k is the first failing one, its error is the one reported |
| `Database.Select` | lib/cli.py:112-116 | a SELECT returns only matching rows of the table and every matching row, no more rows than the table has |
| `Database.Delete` | lib/cli.py:96-97 | a DELETE keeps exactly the non-matching rows |
| `Database.FetchOne` | lib/cli.py:93-94 | `fetchone` is empty iff the result is, otherwise its first row |
| `Database.DeleteIsSelectOfNot` | lib/models.py:118-121 | a DELETE leaves the other rows unchanged and in table order: it equals the SELECT of the negated condition |
| `Database.SelectDeletePartition` | lib/cli.py:93-97 | the rows a DELETE removes are exactly those the matching SELECT finds: together they are the old table, as a multiset and by count |
| `Database.DeleteNoMatch` | lib/models.py:118-121 | a DELETE that matches nothing leaves the table unchanged |
| `Database.SelectEmpty` | lib/cli.py:114-118 | a SELECT is empty iff no row matches |
| `Database.DeleteIdempotent` | lib/cli.py:96-97 | a second DELETE changes nothing, and the same SELECT afterwards is empty |
| `Database.FetchOneIsFirstMatch` | lib/cli.py:127-130 | `fetchone` on a SELECT returns the first matching row in table order |
| `Database.SelectAppend` | lib/cli.py:115-116 | after an INSERT, the new row appears at the end of a SELECT exactly when it matches |
| `Database.Store.constructor` | lib/cli.py:8-33 | opening the database keeps the rows already in both tables |
| `Database.Store.InsertPlayer` | lib/models.py:113-116 | appends one players row; games unchanged |
| `Database.Store.InsertGame` | lib/models.py:165-168 | appends one games row; players unchanged |
| `Database.Store.DeletePlayersNamed` | lib/models.py:120 | players table becomes the DELETE by name; games unchanged |
| `Database.Store.DeleteGamesOf` | lib/models.py:121 | games table becomes the DELETE by player name; players unchanged |
| `Database.Store.DeleteGamesAt` | lib/models.py:172 | games table becomes the DELETE by date and player name; players unchanged |
| `Cli.FormPlayer` | lib/cli.py:78-84 | the typed answers make a player iff the name and position are non-empty, height and weight > 0 and both skills in [0,100]; that player always binds, and its row is exactly the answers |
| `Cli.PlayerCreation` | lib/cli.py:76-88 | corrected `create_player`: a row equal to the answers is added iff they form a valid player; otherwise the first field's error is reported and the table is unchanged; it never crashes |
| `Cli.PlayerDeletion` | lib/cli.py:90-100 | "found" iff some player row has exactly that name; then every such player row and every game with that player name is removed and nothing else; otherwise both tables are unchanged; afterwards no player has that name, and when found no game has it either |
| `Cli.PlayersListing` | lib/cli.py:102-108 | the empty-state outcome iff the players table is empty; a crash iff some row is out of range, with the first bad row's error; otherwise one valid player per row, in order, each saving as its row |
| `Cli.PlayerGamesView` | lib/cli.py:110-123 | "not found" iff no player has that name; "has no games" iff the player exists and no game has that player name; otherwise the non-empty list of that player's games in table order, or the first bad row's error |
| `Cli.PlayerLookup` | lib/cli.py:125-132 | "not found" iff no row has that name; otherwise the result is determined by the first row, in table order, whose name matches exactly |
| `Cli.GameCreation` | lib/cli.py:153-167 | "player not found" iff no player row has that name, checked first; then rejected iff the date is empty or the score negative, with that message; then a crash iff the score exceeds a SQLite INTEGER; a row is written iff the player exists, the date is non-empty and 0 <= score <= 2^63-1, and it ends that player's game lookup |
| `Cli.GameDeletion` | lib/cli.py:169-179 | "found" iff some game matches both date and player name; then exactly those games are removed, otherwise nothing changes; afterwards none match |
| `Cli.GamesListing` | lib/cli.py:181-187 | the empty-state outcome iff the games table is empty; a crash iff some row has an empty date or a negative score, with the first bad row's error; otherwise one valid game per row, in order, each saving as its row |
| `Cli.MainMenuAction` | lib/cli.py:42-49 | "1" and only "1" manages players, "2" and only "2" manages games, "3" and only "3" exits; anything else is invalid |
| `Cli.Cli.constructor` | lib/cli.py:8-10 | the controller holds the given connection |
| `Cli.Cli.CreatePlayerAsWritten` | lib/cli.py:76-88 | as written, every call ends in an uncaught `UnboundLocalError` and, having no frame on the store, writes nothing |
| `Cli.Cli.CreatePlayer` | lib/cli.py:76-88 | corrected: outcome and players table are those of `PlayerCreation`; the games table is unchanged |
| `Cli.Cli.DeletePlayer` | lib/cli.py:90-100 | outcome and both tables are those of `PlayerDeletion` |
| `Cli.Cli.DisplayAllPlayers` | lib/cli.py:102-108 | the outcome is `PlayersListing` of the players table |
| `Cli.Cli.ViewPlayerGames` | lib/cli.py:110-123 | the outcome is `PlayerGamesView` of the two tables |
| `Cli.Cli.FindPlayerByName` | lib/cli.py:125-132 | the outcome is `PlayerLookup` of the players table |
| `Cli.Cli.CreateGame` | lib/cli.py:153-167 | outcome and games table are those of `GameCreation`; the players table is unchanged |
| `Cli.Cli.DeleteGame` | lib/cli.py:169-179 | outcome and games table are those of `GameDeletion`; the players table is unchanged |
| `Cli.Cli.DisplayAllGames` | lib/cli.py:181-187 | the outcome is `GamesListing` of the games table |
| `Cli.Cli.ManagePlayersStep` | lib/cli.py:60-74 | "1" to "5" each run their action (create, delete, display, view, find) with its outcome and tables; "6" and only "6" goes back; anything else is invalid; only "2" can change the games table and only "1" and "2" the players table |
| `Cli.Cli.ManageGamesStep` | lib/cli.py:141-151 | "1" to "3" each run their action (create, delete, display) with its outcome and tables; "4" and only "4" goes back; anything else is invalid; the players table never changes and only "1" and "2" change the games table |
| `Cli.CreatePlayerDiscrepancy` | lib/cli.py:84 | on a fresh store and a valid set of answers, the as-written action crashes with `UnboundLocalError` and leaves the table empty, while the corrected one reports success and the table holds exactly the answers' row |

## Left out

- The SQLite connection, the `CREATE TABLE` statements, the `id` columns and `with conn` transaction scoping are not modelled. The store is two sequences of rows, and each statement is one atomic update.
- The `input`/`print` calls are not modelled. Answers are parameters, and printed messages are outcome values.
- The `while True` menu loops are modelled as a single dispatch step each (`MainMenuAction`, `ManagePlayersStep`, `ManageGamesStep`).
- The `float()`/`int()` conversion of typed text is not modelled, so the `ValueError` a failed conversion raises inside `create_player` or `create_game` is not modelled either. The answers arrive already converted.
- `__repr__` formatting is cosmetic output and is not modelled.
- If a games row fails validation, `view_player_games` raises partway through its printing loop. The lines it printed before that row are not modelled. `display_all_players` and `display_all_games` print nothing before raising, because `get_all_from_db` builds the whole list first.
- Floating point is not modelled: height and weight are `real`, and only their comparison with 0 matters.
- Python's `bool` is a subclass of `int`, so `True` passes the `isinstance(v, int)` checks. This is not modelled: `Value` has no boolean kind.
- SQLite column affinity is modelled only for the REAL columns, which turn an `int` height or weight into a `float` (`PlayerFields.Stored`). NULL cells in the nullable columns are not modelled. Values of another type stored in a column are not modelled either: rows carry the declared column types.
- `Game.player_name` is typed as text. The source stores any object there unchecked, but every caller passes text: `create_game`'s answer or the TEXT column.
- `Position`, `Attributes` and `Skills` are values, not shared objects. Their setters return the updated value (`SetHeight` and the others), so changing them in place through a `Player` that holds them is not modelled. `Player` and `Game` are objects, and a player's game list holds references.
- Cli.Cli.ManagePlayersStep: choice "1" runs the corrected `Cli.Cli.CreatePlayer`, not the as-written action at `lib/cli.py:84`, which always crashes (see Findings).
- Database.Select: the statements have no `ORDER BY`, and SQL does not promise an order without one. The model takes table order, which is rowid order, as SQLite returns it for these plain scans. Order and multiplicity of a SELECT are stated by `Database.SelectAppend` and `Database.SelectDeletePartition`, not by `Select`'s own contract.
- Of SQLite's limits, only the INTEGER range of `int` parameters is modelled. The REAL range of a `float` and the maximum length of text are not.
- The foreign key on `games.player_name` is declared but not enforced, so the model assumes no referential integrity. Games whose player was never created may exist, and `DeletePlayer` leaves them alone when the name is not found.
- The text of the `UnboundLocalError` message depends on the Python version. `UnboundPlayer` uses one wording; only the exception kind matters.

## Findings

| source | as written | input that shows it | evidently intended | confidence | as-written member | corrected member |
|---|---|---|---|---|---|---|
| lib/cli.py:84 | `player = player(...)` makes `player` a local, so the call reads it before assignment and raises `UnboundLocalError`. `except ValueError` does not catch it, so no player is ever saved and the program ends | a valid set of answers, such as "Alice", "Guard", 180.0, 75.0, 80, 70 on an empty store (`Cli.CreatePlayerDiscrepancy`) | call the `Player` class, then `save_to_db`, reporting validation errors | high; not executed | `Cli.Cli.CreatePlayerAsWritten` | `Cli.Cli.CreatePlayer` |
