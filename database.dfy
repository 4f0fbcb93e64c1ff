/** The two SQLite tables, `players` and `games`, and the single-statement
    queries run against them. Every statement compares columns with `=`, so
    a SELECT is a filter of the table in row order, a DELETE keeps the rows
    the filter rejects, and an INSERT appends one row. The numeric `id`
    columns are never read and are left out of the rows. */
module Database {
  import opened Results

  /** A row of `players(name, position, height, weight, shooting, passing)`;
      `height` and `weight` are REAL columns. */
  datatype PlayerRow = PlayerRow(name: string, position: string, height: real,
                                 weight: real, shooting: int, passing: int)

  /** A row of `games(date, player_name, score)`. */
  datatype GameRow = GameRow(date: string, playerName: string, score: int)

  /** The range of a SQLite INTEGER, a signed 64-bit number: the sqlite3
      module binds a Python `int` parameter only within it. */
  const MinSqliteInt := -0x8000_0000_0000_0000
  const MaxSqliteInt := 0x7FFF_FFFF_FFFF_FFFF

  predicate BindsAsInteger(i: int) {
    MinSqliteInt <= i <= MaxSqliteInt
  }

  /** What the sqlite3 module raises, before the statement runs, for an
      `int` parameter outside that range. It is not a `ValueError`. */
  const IntegerOverflow := "OverflowError: Python int too large to convert to SQLite INTEGER"

  /** `WHERE name = ?` on the players table. */
  function NameIs(name: string): PlayerRow -> bool {
    (row: PlayerRow) => row.name == name
  }

  /** `WHERE player_name = ?` on the games table. */
  function PlayerNameIs(name: string): GameRow -> bool {
    (row: GameRow) => row.playerName == name
  }

  /** `WHERE date = ? AND player_name = ?` on the games table. */
  function DateAndPlayerNameIs(date: string, name: string): GameRow -> bool {
    (row: GameRow) => row.date == date && row.playerName == name
  }

  /** The negation of a WHERE condition. */
  function Not<T>(where: T -> bool): T -> bool {
    row => !where(row)
  }

  /** `SELECT * ... WHERE`: the rows satisfying `where`, in table order. */
  function Select<T>(rows: seq<T>, where: T -> bool): (r: seq<T>)
    ensures |r| <= |rows|
    ensures forall i :: 0 <= i < |r| ==> r[i] in rows && where(r[i])
    ensures forall i :: 0 <= i < |rows| && where(rows[i]) ==> rows[i] in r
  {
    if rows == [] then []
    else if where(rows[0]) then [rows[0]] + Select(rows[1..], where)
    else Select(rows[1..], where)
  }

  /** The table left by `DELETE ... WHERE`: the rows `where` rejects, in
      table order. */
  function Delete<T>(rows: seq<T>, where: T -> bool): (r: seq<T>)
    ensures |r| <= |rows|
    ensures forall i :: 0 <= i < |r| ==> r[i] in rows && !where(r[i])
    ensures forall i :: 0 <= i < |rows| && !where(rows[i]) ==> rows[i] in r
  {
    if rows == [] then []
    else if where(rows[0]) then Delete(rows[1..], where)
    else [rows[0]] + Delete(rows[1..], where)
  }

  /** `cursor.fetchone()`: the first row of a result set, if any. */
  function FetchOne<T>(rows: seq<T>): (r: Option<T>)
    ensures r.None? <==> rows == []
    ensures r.Some? ==> r.value == rows[0]
  {
    if rows == [] then None else Some(rows[0])
  }

  /** A DELETE keeps exactly the rows a SELECT with the negated condition
      returns, in the same order: nothing else in the table moves. */
  lemma {:induction false} DeleteIsSelectOfNot<T>(rows: seq<T>, where: T -> bool)
    ensures Delete(rows, where) == Select(rows, Not(where))
  {
    if rows != [] {
      DeleteIsSelectOfNot(rows[1..], where);
    }
  }

  /** The rows a DELETE removes are exactly the ones the matching SELECT
      returns: together they are the old table. */
  lemma {:induction false} SelectDeletePartition<T>(rows: seq<T>, where: T -> bool)
    ensures multiset(Select(rows, where)) + multiset(Delete(rows, where)) == multiset(rows)
    ensures |Select(rows, where)| + |Delete(rows, where)| == |rows|
  {
    if rows != [] {
      SelectDeletePartition(rows[1..], where);
      assert rows == [rows[0]] + rows[1..];
    }
  }

  /** A DELETE that matches no row leaves the table as it was. */
  lemma {:induction false} DeleteNoMatch<T>(rows: seq<T>, where: T -> bool)
    requires forall i :: 0 <= i < |rows| ==> !where(rows[i])
    ensures Delete(rows, where) == rows
  {
    if rows != [] {
      DeleteNoMatch(rows[1..], where);
      assert rows == [rows[0]] + rows[1..];
    }
  }

  /** A SELECT is empty exactly when no row matches. */
  lemma SelectEmpty<T>(rows: seq<T>, where: T -> bool)
    ensures Select(rows, where) == [] <==> forall i :: 0 <= i < |rows| ==> !where(rows[i])
  {
  }

  /** Repeating a DELETE changes nothing more, and a SELECT with the same
      condition afterwards finds nothing. */
  lemma DeleteIdempotent<T>(rows: seq<T>, where: T -> bool)
    ensures Delete(Delete(rows, where), where) == Delete(rows, where)
    ensures Select(Delete(rows, where), where) == []
  {
  }

  /** The first matching row of the table is the row `fetchone` returns from
      the SELECT. */
  lemma {:induction false} FetchOneIsFirstMatch<T>(rows: seq<T>, where: T -> bool, i: nat)
    requires i < |rows| && where(rows[i])
    requires forall j :: 0 <= j < i ==> !where(rows[j])
    ensures FetchOne(Select(rows, where)) == Some(rows[i])
  {
    if i > 0 {
      FetchOneIsFirstMatch(rows[1..], where, i - 1);
    }
  }

  /** Selecting after an INSERT: the new row joins the end of the result
      exactly when it matches. */
  lemma {:induction false} SelectAppend<T>(rows: seq<T>, row: T, where: T -> bool)
    ensures Select(rows + [row], where)
            == Select(rows, where) + (if where(row) then [row] else [])
  {
    if rows == [] {
      assert rows + [row] == [row];
    } else {
      assert (rows + [row])[1..] == rows[1..] + [row];
      SelectAppend(rows[1..], row, where);
    }
  }

  /** The database connection: the two tables as the program sees them. */
  class Store {
    var players: seq<PlayerRow>
    var games: seq<GameRow>

    /** Opening the database file; `CREATE TABLE IF NOT EXISTS` keeps
        whatever rows the file already holds. */
    constructor (players: seq<PlayerRow>, games: seq<GameRow>)
      ensures this.players == players && this.games == games
    {
      this.players := players;
      this.games := games;
    }

    /** `INSERT INTO players ...` */
    method InsertPlayer(row: PlayerRow)
      modifies this
      ensures players == old(players) + [row]
      ensures games == old(games)
    {
      players := players + [row];
    }

    /** `INSERT INTO games ...` */
    method InsertGame(row: GameRow)
      modifies this
      ensures games == old(games) + [row]
      ensures players == old(players)
    {
      games := games + [row];
    }

    /** `DELETE FROM players WHERE name = ?` */
    method DeletePlayersNamed(name: string)
      modifies this
      ensures players == Delete(old(players), NameIs(name))
      ensures games == old(games)
    {
      players := Delete(players, NameIs(name));
    }

    /** `DELETE FROM games WHERE player_name = ?` */
    method DeleteGamesOf(name: string)
      modifies this
      ensures games == Delete(old(games), PlayerNameIs(name))
      ensures players == old(players)
    {
      games := Delete(games, PlayerNameIs(name));
    }

    /** `DELETE FROM games WHERE date = ? AND player_name = ?` */
    method DeleteGamesAt(date: string, name: string)
      modifies this
      ensures games == Delete(old(games), DateAndPlayerNameIs(date, name))
      ensures players == old(players)
    {
      games := Delete(games, DateAndPlayerNameIs(date, name));
    }
  }
}
