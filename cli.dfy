/** The menu controller of lib/cli.py, at the level of the store: each leaf
    action of the players and games menus, and one dispatch step of each
    menu. What the user types is passed in as parameters, already converted
    by `float()`/`int()`; what the program prints is returned as an outcome.
    An exception the source does not catch ends the program; such an outcome
    is a `...Crashed` value carrying the exception's message. Each action is
    a method on the open connection, proved against a function of the tables
    that says what it reports and what the tables become. */
module Cli {
  import opened Results
  import opened Database
  import opened Models

  /** The answers `create_player` reads, after conversion. */
  datatype PlayerForm = PlayerForm(name: string, position: string, height: real, weight: real,
                                   shooting: int, passing: int)

  /** The values `create_player` hands to the `Player` constructor. */
  function FormPlayer(form: PlayerForm): (r: Result<PlayerFields>)
    ensures r.Success? <==> |form.name| > 0 && |form.position| > 0 && form.height > 0.0
                            && form.weight > 0.0 && 0 <= form.shooting <= 100 && 0 <= form.passing <= 100
    ensures r.Success? ==> r.value.Valid() && r.value.Bindable()
                           && r.value.Row() == PlayerRow(form.name, form.position, form.height, form.weight,
                                                         form.shooting, form.passing)
  {
    NewPlayer(VStr(form.name), VStr(form.position), VReal(form.height), VReal(form.weight),
              VInt(form.shooting), VInt(form.passing))
  }

  /** The message of the `UnboundLocalError` raised at lib/cli.py:84. */
  const UnboundPlayer := "UnboundLocalError: local variable 'player' referenced before assignment"

  datatype CreatePlayerOutcome = PlayerCreated | PlayerRejected(error: string) | CreateCrashed(error: string)

  datatype CreateGameOutcome = GameCreated | GamePlayerNotFound | GameRejected(error: string) | GameCrashed(error: string)

  /** `display_all_players` / `display_all_games`. */
  datatype Listing<T> = NoneAvailable | Listed(items: seq<T>) | ListCrashed(error: string)

  /** `view_player_games`. */
  datatype GamesView = ViewPlayerNotFound | NoGames | GamesListed(games: seq<GameFields>) | ViewCrashed(error: string)

  /** `find_player_by_name`. */
  datatype Lookup = LookupNotFound | Found(player: PlayerFields) | LookupCrashed(error: string)

  /** Whether some players row has exactly this name. */
  predicate HasPlayer(players: seq<PlayerRow>, name: string) {
    exists i :: 0 <= i < |players| && players[i].name == name
  }

  /** Whether some games row has exactly this date and player name. */
  predicate HasGame(games: seq<GameRow>, date: string, name: string) {
    exists i :: 0 <= i < |games| && games[i].date == date && games[i].playerName == name
  }

  /** `create_player` as evidently intended, calling `Player(...)`: a valid
      form adds exactly its row; an invalid one reports the first field's
      error and writes nothing. The answers are a `float` height and weight
      and two ratings of at most 100, so saving never overflows. */
  function PlayerCreation(players: seq<PlayerRow>, form: PlayerForm): (r: (CreatePlayerOutcome, seq<PlayerRow>))
    ensures !r.0.CreateCrashed?
    ensures r.0.PlayerCreated? <==> FormPlayer(form).Success?
    ensures r.0.PlayerRejected? ==> FormPlayer(form) == Failure(r.0.error)
    ensures r.1 == if r.0.PlayerCreated?
                   then players + [PlayerRow(form.name, form.position, form.height, form.weight,
                                             form.shooting, form.passing)]
                   else players
  {
    match FormPlayer(form)
    case Failure(e) => (PlayerRejected(e), players)
    case Success(p) => if p.Bindable() then (PlayerCreated, players + [p.Row()])
                       else (CreateCrashed(IntegerOverflow), players)
  }

  /** `delete_player`: when some player row has exactly this name, every
      such row and every game with this player name go, and nothing else;
      otherwise "not found" and both tables stay as they were. */
  function PlayerDeletion(players: seq<PlayerRow>, games: seq<GameRow>, name: string)
    : (r: (bool, seq<PlayerRow>, seq<GameRow>))
    ensures r.0 <==> HasPlayer(players, name)
    ensures r.0 ==> r.1 == Delete(players, NameIs(name)) && r.2 == Delete(games, PlayerNameIs(name))
    ensures !r.0 ==> r.1 == players && r.2 == games
    ensures !HasPlayer(r.1, name)
    ensures r.0 ==> Select(r.2, PlayerNameIs(name)) == []
  {
    SelectEmpty(players, NameIs(name));
    if Select(players, NameIs(name)) == [] then (false, players, games)
    else
      DeleteIdempotent(players, NameIs(name));
      DeleteIdempotent(games, PlayerNameIs(name));
      SelectEmpty(Delete(players, NameIs(name)), NameIs(name));
      (true, Delete(players, NameIs(name)), Delete(games, PlayerNameIs(name)))
  }

  /** `display_all_players`: the empty-state message exactly when the table
      has no rows, otherwise every row's player in table order, each saving
      back to its row, unless a row fails validation, which raises out of
      the program. */
  function PlayersListing(players: seq<PlayerRow>): (l: Listing<PlayerFields>)
    ensures l.NoneAvailable? <==> players == []
    ensures l.Listed? ==> |l.items| == |players|
                          && forall i :: 0 <= i < |players| ==> l.items[i].Valid() && l.items[i].Row() == players[i]
    ensures l.ListCrashed? <==> exists i :: 0 <= i < |players| && PlayerFromRow(players[i]).Failure?
    ensures l.ListCrashed? ==> PlayersFromRows(players) == Failure(l.error)
  {
    match PlayersFromRows(players)
    case Failure(e) => ListCrashed(e)
    case Success(items) => if items == [] then NoneAvailable else Listed(items)
  }

  /** `view_player_games`: "not found" when no player row has the name;
      otherwise the games whose player name equals it, in table order, or
      "has no games" when there are none. */
  function PlayerGamesView(players: seq<PlayerRow>, games: seq<GameRow>, name: string): (v: GamesView)
    ensures v.ViewPlayerNotFound? <==> !HasPlayer(players, name)
    ensures v.NoGames? <==> HasPlayer(players, name)
                            && forall i :: 0 <= i < |games| ==> games[i].playerName != name
    ensures v.GamesListed? ==> v.games != []
                               && GamesFromRows(Select(games, PlayerNameIs(name))) == Success(v.games)
                               && forall i :: 0 <= i < |v.games| ==> v.games[i].playerName == name
    ensures v.ViewCrashed? ==> GamesFromRows(Select(games, PlayerNameIs(name))) == Failure(v.error)
  {
    SelectEmpty(players, NameIs(name));
    SelectEmpty(games, PlayerNameIs(name));
    var rows := Select(games, PlayerNameIs(name));
    if Select(players, NameIs(name)) == [] then ViewPlayerNotFound
    else if rows == [] then NoGames
    else
      match GamesFromRows(rows)
      case Failure(e) => ViewCrashed(e)
      case Success(listed) =>
        assert forall i :: 0 <= i < |listed| ==> listed[i].playerName == name by {
          forall i | 0 <= i < |listed| ensures listed[i].playerName == name {
            assert listed[i].Row() == rows[i];
            assert PlayerNameIs(name)(rows[i]);
          }
        }
        GamesListed(listed)
  }

  /** `find_player_by_name`: the player of the first row whose name equals
      the given one, or "not found" when there is none. */
  function PlayerLookup(players: seq<PlayerRow>, name: string): (l: Lookup)
    ensures l.LookupNotFound? <==> !HasPlayer(players, name)
    ensures forall i :: 0 <= i < |players| && players[i].name == name
                        && (forall j :: 0 <= j < i ==> players[j].name != name) ==>
                          l == match PlayerFromRow(players[i])
                               case Success(p) => Found(p)
                               case Failure(e) => LookupCrashed(e)
    ensures l.Found? ==> l.player.name == name
  {
    SelectEmpty(players, NameIs(name));
    var first := FetchOne(Select(players, NameIs(name)));
    assert forall i :: (0 <= i < |players| && players[i].name == name
                        && forall j :: 0 <= j < i ==> players[j].name != name) ==> first == Some(players[i]) by {
      forall i | 0 <= i < |players| && players[i].name == name
                 && (forall j :: 0 <= j < i ==> players[j].name != name)
        ensures first == Some(players[i])
      {
        FetchOneIsFirstMatch(players, NameIs(name), i);
      }
    }
    match first
    case None => LookupNotFound
    case Some(row) =>
      match PlayerFromRow(row)
      case Success(p) => Found(p)
      case Failure(e) => LookupCrashed(e)
  }

  /** `create_game`: the player lookup comes first; then the `Game`
      constructor, whose `ValueError` is reported; then the INSERT, whose
      `OverflowError` for a score beyond a SQLite INTEGER is not caught. A
      row is written only when all three pass. */
  function GameCreation(players: seq<PlayerRow>, games: seq<GameRow>, date: string, playerName: string,
                        score: int): (r: (CreateGameOutcome, seq<GameRow>))
    ensures r.0.GamePlayerNotFound? <==> !HasPlayer(players, playerName)
    ensures r.0.GameRejected? <==> HasPlayer(players, playerName) && (|date| == 0 || score < 0)
    ensures r.0.GameRejected? ==> r.0.error == if |date| == 0 then DateEmpty else ScoreNegative
    ensures r.0.GameCrashed? <==> HasPlayer(players, playerName) && |date| > 0 && score > MaxSqliteInt
    ensures r.0.GameCrashed? ==> r.0.error == IntegerOverflow
    ensures r.0.GameCreated? <==> HasPlayer(players, playerName) && |date| > 0 && 0 <= score <= MaxSqliteInt
    ensures r.1 == if r.0.GameCreated? then games + [GameRow(date, playerName, score)] else games
    ensures r.0.GameCreated? ==> Select(r.1, PlayerNameIs(playerName))
                                 == Select(games, PlayerNameIs(playerName)) + [GameRow(date, playerName, score)]
  {
    SelectEmpty(players, NameIs(playerName));
    if Select(players, NameIs(playerName)) == [] then (GamePlayerNotFound, games)
    else
      match NewGame(VStr(date), playerName, VInt(score))
      case Failure(e) => (GameRejected(e), games)
      case Success(g) =>
        if !g.Bindable() then (GameCrashed(IntegerOverflow), games)
        else
          SelectAppend(games, g.Row(), PlayerNameIs(playerName));
          (GameCreated, games + [g.Row()])
  }

  /** `delete_game`: when some game has exactly this date and player name,
      all such games go and nothing else; otherwise "not found" and the
      table stays as it was. */
  function GameDeletion(games: seq<GameRow>, date: string, playerName: string): (r: (bool, seq<GameRow>))
    ensures r.0 <==> HasGame(games, date, playerName)
    ensures r.1 == if r.0 then Delete(games, DateAndPlayerNameIs(date, playerName)) else games
    ensures !HasGame(r.1, date, playerName)
  {
    SelectEmpty(games, DateAndPlayerNameIs(date, playerName));
    if Select(games, DateAndPlayerNameIs(date, playerName)) == [] then (false, games)
    else
      DeleteIdempotent(games, DateAndPlayerNameIs(date, playerName));
      SelectEmpty(Delete(games, DateAndPlayerNameIs(date, playerName)), DateAndPlayerNameIs(date, playerName));
      (true, Delete(games, DateAndPlayerNameIs(date, playerName)))
  }

  /** `display_all_games`: the empty-state message exactly when the table
      has no rows, otherwise every row's game in table order, each saving
      back to its row, unless a row fails validation, which raises out of
      the program. */
  function GamesListing(games: seq<GameRow>): (l: Listing<GameFields>)
    ensures l.NoneAvailable? <==> games == []
    ensures l.Listed? ==> |l.items| == |games|
                          && forall i :: 0 <= i < |games| ==> l.items[i].Valid() && l.items[i].Row() == games[i]
    ensures l.ListCrashed? <==> exists i :: 0 <= i < |games| && (|games[i].date| == 0 || games[i].score < 0)
    ensures l.ListCrashed? ==> GamesFromRows(games) == Failure(l.error)
  {
    match GamesFromRows(games)
    case Failure(e) => ListCrashed(e)
    case Success(items) => if items == [] then NoneAvailable else Listed(items)
  }

  /** The main menu's choices. */
  datatype MainAction = ManagePlayers | ManageGames | Exit | MainInvalid

  /** `menu`: one choice of the main menu. */
  function MainMenuAction(choice: string): (a: MainAction)
    ensures a == ManagePlayers <==> choice == "1"
    ensures a == ManageGames <==> choice == "2"
    ensures a == Exit <==> choice == "3"
    ensures a == MainInvalid <==> choice !in {"1", "2", "3"}
  {
    if choice == "1" then ManagePlayers
    else if choice == "2" then ManageGames
    else if choice == "3" then Exit
    else MainInvalid
  }

  /** What one step of the players menu reports. */
  datatype PlayersReply =
    | CreatePlayerReply(created: CreatePlayerOutcome)
    | DeletePlayerReply(found: bool)
    | DisplayPlayersReply(players: Listing<PlayerFields>)
    | ViewGamesReply(view: GamesView)
    | FindPlayerReply(lookup: Lookup)
    | PlayersBack
    | PlayersInvalid

  /** What one step of the games menu reports. */
  datatype GamesReply =
    | CreateGameReply(created: CreateGameOutcome)
    | DeleteGameReply(found: bool)
    | DisplayGamesReply(games: Listing<GameFields>)
    | GamesBack
    | GamesInvalid

  /** The `CLI` object: the open connection to the two tables. */
  class Cli {
    const conn: Store

    /** `CLI.__init__` over an already opened database. */
    constructor (conn: Store)
      ensures this.conn == conn
    {
      this.conn := conn;
    }

    /** `create_player` as written: line 84 assigns the local `player`, so
        calling `player(...)` raises `UnboundLocalError`, which the
        `except ValueError` does not catch. Nothing is saved, whatever the
        answers. */
    method CreatePlayerAsWritten(form: PlayerForm) returns (o: CreatePlayerOutcome)
      ensures o == CreateCrashed(UnboundPlayer)
    {
      o := CreateCrashed(UnboundPlayer);
    }

    /** `create_player` as evidently intended, calling `Player(...)`. */
    method CreatePlayer(form: PlayerForm) returns (o: CreatePlayerOutcome)
      modifies conn
      ensures (o, conn.players) == PlayerCreation(old(conn.players), form)
      ensures conn.games == old(conn.games)
    {
      var p := Player.New(VStr(form.name), VStr(form.position), VReal(form.height), VReal(form.weight),
                          VInt(form.shooting), VInt(form.passing));
      if p.Failure? {
        return PlayerRejected(p.error);
      }
      var error := p.value.SaveToDb(conn);
      if error.Some? {
        return CreateCrashed(error.value);
      }
      o := PlayerCreated;
    }

    /** `delete_player`. */
    method DeletePlayer(name: string) returns (found: bool)
      modifies conn
      ensures (found, conn.players, conn.games) == PlayerDeletion(old(conn.players), old(conn.games), name)
    {
      SelectEmpty(conn.players, NameIs(name));
      var player := FetchOne(Select(conn.players, NameIs(name)));
      if player.Some? {
        conn.DeletePlayersNamed(name);
        conn.DeleteGamesOf(name);
        found := true;
      } else {
        found := false;
      }
    }

    /** `display_all_players`. */
    method DisplayAllPlayers() returns (l: Listing<PlayerFields>)
      ensures l == PlayersListing(conn.players)
    {
      var players := PlayersFromRows(conn.players);
      if players.Failure? {
        return ListCrashed(players.error);
      }
      if players.value == [] {
        l := NoneAvailable;
      } else {
        l := Listed(players.value);
      }
    }

    /** `view_player_games`. */
    method ViewPlayerGames(name: string) returns (v: GamesView)
      ensures v == PlayerGamesView(conn.players, conn.games, name)
    {
      SelectEmpty(conn.players, NameIs(name));
      var player := FetchOne(Select(conn.players, NameIs(name)));
      if player.None? {
        return ViewPlayerNotFound;
      }
      var rows := Select(conn.games, PlayerNameIs(name));
      if rows == [] {
        return NoGames;
      }
      var games := GamesFromRows(rows);
      if games.Failure? {
        return ViewCrashed(games.error);
      }
      v := GamesListed(games.value);
    }

    /** `find_player_by_name`. */
    method FindPlayerByName(name: string) returns (l: Lookup)
      ensures l == PlayerLookup(conn.players, name)
    {
      var player := FetchOne(Select(conn.players, NameIs(name)));
      if player.None? {
        return LookupNotFound;
      }
      var p := PlayerFromRow(player.value);
      if p.Failure? {
        return LookupCrashed(p.error);
      }
      l := Found(p.value);
    }

    /** `create_game`. */
    method CreateGame(date: string, playerName: string, score: int) returns (o: CreateGameOutcome)
      modifies conn
      ensures (o, conn.games) == GameCreation(old(conn.players), old(conn.games), date, playerName, score)
      ensures conn.players == old(conn.players)
    {
      SelectEmpty(conn.players, NameIs(playerName));
      var player := FetchOne(Select(conn.players, NameIs(playerName)));
      if player.None? {
        return GamePlayerNotFound;
      }
      var game := Game.New(VStr(date), playerName, VInt(score));
      if game.Failure? {
        return GameRejected(game.error);
      }
      var error := game.value.SaveToDb(conn);
      if error.Some? {
        return GameCrashed(error.value);
      }
      o := GameCreated;
    }

    /** `delete_game`. */
    method DeleteGame(date: string, playerName: string) returns (found: bool)
      modifies conn
      ensures (found, conn.games) == GameDeletion(old(conn.games), date, playerName)
      ensures conn.players == old(conn.players)
    {
      SelectEmpty(conn.games, DateAndPlayerNameIs(date, playerName));
      var game := FetchOne(Select(conn.games, DateAndPlayerNameIs(date, playerName)));
      if game.Some? {
        conn.DeleteGamesAt(date, playerName);
        found := true;
      } else {
        found := false;
      }
    }

    /** `display_all_games`. */
    method DisplayAllGames() returns (l: Listing<GameFields>)
      ensures l == GamesListing(conn.games)
    {
      var games := GamesFromRows(conn.games);
      if games.Failure? {
        return ListCrashed(games.error);
      }
      if games.value == [] {
        l := NoneAvailable;
      } else {
        l := Listed(games.value);
      }
    }

    /** `manage_players`: one choice of the players menu, with the answers the
        chosen action reads. Each recognised choice runs its action, on the
        tables as they were; only "1" and "2" can change them. */
    method ManagePlayersStep(choice: string, form: PlayerForm, name: string) returns (reply: PlayersReply)
      modifies conn
      ensures choice == "1" ==> reply == CreatePlayerReply(PlayerCreation(old(conn.players), form).0)
                                && conn.players == PlayerCreation(old(conn.players), form).1
      ensures choice == "2" ==> reply == DeletePlayerReply(PlayerDeletion(old(conn.players), old(conn.games), name).0)
                                && conn.players == PlayerDeletion(old(conn.players), old(conn.games), name).1
                                && conn.games == PlayerDeletion(old(conn.players), old(conn.games), name).2
      ensures choice == "3" ==> reply == DisplayPlayersReply(PlayersListing(conn.players))
      ensures choice == "4" ==> reply == ViewGamesReply(PlayerGamesView(conn.players, conn.games, name))
      ensures choice == "5" ==> reply == FindPlayerReply(PlayerLookup(conn.players, name))
      ensures reply == PlayersBack <==> choice == "6"
      ensures reply == PlayersInvalid <==> choice !in {"1", "2", "3", "4", "5", "6"}
      ensures choice != "2" ==> conn.games == old(conn.games)
      ensures choice !in {"1", "2"} ==> conn.players == old(conn.players)
    {
      if choice == "1" {
        var o := CreatePlayer(form);
        reply := CreatePlayerReply(o);
      } else if choice == "2" {
        var found := DeletePlayer(name);
        reply := DeletePlayerReply(found);
      } else if choice == "3" {
        var l := DisplayAllPlayers();
        reply := DisplayPlayersReply(l);
      } else if choice == "4" {
        var v := ViewPlayerGames(name);
        reply := ViewGamesReply(v);
      } else if choice == "5" {
        var l := FindPlayerByName(name);
        reply := FindPlayerReply(l);
      } else if choice == "6" {
        reply := PlayersBack;
      } else {
        reply := PlayersInvalid;
      }
    }

    /** `manage_games`: one choice of the games menu, with the answers the
        chosen action reads. Each recognised choice runs its action, on the
        tables as they were; only "1" and "2" can change them, and neither
        touches the players table. */
    method ManageGamesStep(choice: string, date: string, playerName: string, score: int)
      returns (reply: GamesReply)
      modifies conn
      ensures choice == "1" ==>
                reply == CreateGameReply(GameCreation(old(conn.players), old(conn.games), date, playerName, score).0)
                && conn.games == GameCreation(old(conn.players), old(conn.games), date, playerName, score).1
      ensures choice == "2" ==> reply == DeleteGameReply(GameDeletion(old(conn.games), date, playerName).0)
                                && conn.games == GameDeletion(old(conn.games), date, playerName).1
      ensures choice == "3" ==> reply == DisplayGamesReply(GamesListing(conn.games))
      ensures reply == GamesBack <==> choice == "4"
      ensures reply == GamesInvalid <==> choice !in {"1", "2", "3", "4"}
      ensures conn.players == old(conn.players)
      ensures choice !in {"1", "2"} ==> conn.games == old(conn.games)
    {
      if choice == "1" {
        var o := CreateGame(date, playerName, score);
        reply := CreateGameReply(o);
      } else if choice == "2" {
        var found := DeleteGame(date, playerName);
        reply := DeleteGameReply(found);
      } else if choice == "3" {
        var l := DisplayAllGames();
        reply := DisplayGamesReply(l);
      } else if choice == "4" {
        reply := GamesBack;
      } else {
        reply := GamesInvalid;
      }
    }
  }

  /** The discrepancy at lib/cli.py:84 on a valid set of answers and an empty
      store: the action as written crashes and writes nothing, while the
      evidently intended one saves exactly the row of those answers. */
  method CreatePlayerDiscrepancy() returns (asWritten: CreatePlayerOutcome, rowsAsWritten: seq<PlayerRow>,
                                            intended: CreatePlayerOutcome, rowsIntended: seq<PlayerRow>)
    ensures asWritten == CreateCrashed(UnboundPlayer) && rowsAsWritten == []
    ensures intended == PlayerCreated && rowsIntended == [PlayerRow("Alice", "Guard", 180.0, 75.0, 80, 70)]
  {
    var form := PlayerForm("Alice", "Guard", 180.0, 75.0, 80, 70);
    var store := new Store([], []);
    var cli := new Cli(store);
    asWritten := cli.CreatePlayerAsWritten(form);
    rowsAsWritten := store.players;
    intended := cli.CreatePlayer(form);
    rowsIntended := store.players;
  }
}
