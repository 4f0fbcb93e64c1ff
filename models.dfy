/** The entity layer of lib/models.py: the validating setters of
    `Attributes`, `Skills`, `Position`, `Player` and `Game`, the in-memory
    game list of a `Player`, and each entity's statements against the two
    tables. Every setter checks the type of its value before its range and
    raises `ValueError` on the first check that fails; here that is a
    `Failure` carrying the same message. */
module Models {
  import opened Results
  import opened Database

  /** A Python object handed to a constructor or setter, reduced to the kinds
      the checks tell apart. `VOther` stands for every other object (`None`,
      a list, ...). */
  datatype Value = VInt(i: int) | VReal(r: real) | VStr(s: string) | VGame(game: Game) | VOther

  /** `isinstance(value, (int, float))` */
  predicate IsNumber(v: Value) {
    v.VInt? || v.VReal?
  }

  /** The numeric value of an `int` or a `float`. */
  function NumberValue(v: Value): real
    requires IsNumber(v)
  {
    if v.VInt? then v.i as real else v.r
  }

  /** What the height and weight setters accept. */
  predicate IsPositiveNumber(v: Value) {
    IsNumber(v) && NumberValue(v) > 0.0
  }

  /** What the shooting and passing setters accept. */
  predicate IsSkill(v: Value) {
    v.VInt? && 0 <= v.i <= 100
  }

  /** What the position name, player name and date setters accept. */
  predicate IsNonEmptyText(v: Value) {
    v.VStr? && |v.s| > 0
  }

  /** What the score setter accepts. */
  predicate IsScore(v: Value) {
    v.VInt? && v.i >= 0
  }

  const HeightNotNumber := "Height must be a number"
  const HeightNotPositive := "Height must be greater than zero"
  const WeightNotNumber := "Weight must be a number"
  const WeightNotPositive := "Weight must be greater than zero"
  const ShootingNotInteger := "Shooting skill must be an integer"
  const ShootingOutOfRange := "Shooting skill must be between 0 and 100"
  const PassingNotInteger := "Passing skill must be an integer"
  const PassingOutOfRange := "Passing skill must be between 0 and 100"
  const PositionNotString := "Position name must be a string"
  const PositionEmpty := "Position name must be greater than zero characters"
  const NameNotString := "Name must be a string"
  const NameEmpty := "Name must be greater than zero characters"
  const DateNotString := "Date must be a string"
  const DateEmpty := "Date must be greater than zero characters"
  const ScoreNotInteger := "Score must be an integer"
  const ScoreNegative := "Score must be greater than or equal to zero"

  /** The height/weight check: a number, then strictly positive. Exactly 0
      is rejected; a non-number never reaches the range check. */
  function CheckPositive(v: Value, notNumber: string, notPositive: string): (r: Result<Value>)
    ensures r.Success? <==> IsPositiveNumber(v)
    ensures r.Success? ==> r.value == v
    ensures !IsNumber(v) ==> r == Failure(notNumber)
    ensures IsNumber(v) && !IsPositiveNumber(v) ==> r == Failure(notPositive)
  {
    if !IsNumber(v) then Failure(notNumber)
    else if NumberValue(v) <= 0.0 then Failure(notPositive)
    else Success(v)
  }

  /** The skill check: an `int`, then within 0..100 inclusive. */
  function CheckSkill(v: Value, notInteger: string, outOfRange: string): (r: Result<int>)
    ensures r.Success? <==> IsSkill(v)
    ensures r.Success? ==> r == Success(v.i)
    ensures !v.VInt? ==> r == Failure(notInteger)
    ensures v.VInt? && !IsSkill(v) ==> r == Failure(outOfRange)
  {
    if !v.VInt? then Failure(notInteger)
    else if v.i < 0 || v.i > 100 then Failure(outOfRange)
    else Success(v.i)
  }

  /** The text check: a `str`, then at least one character. */
  function CheckText(v: Value, notString: string, empty: string): (r: Result<string>)
    ensures r.Success? <==> IsNonEmptyText(v)
    ensures r.Success? ==> r == Success(v.s)
    ensures !v.VStr? ==> r == Failure(notString)
    ensures v.VStr? && !IsNonEmptyText(v) ==> r == Failure(empty)
  {
    if !v.VStr? then Failure(notString)
    else if |v.s| == 0 then Failure(empty)
    else Success(v.s)
  }

  /** The score check: an `int`, then not negative. */
  function CheckScore(v: Value): (r: Result<int>)
    ensures r.Success? <==> IsScore(v)
    ensures r.Success? ==> r == Success(v.i)
    ensures !v.VInt? ==> r == Failure(ScoreNotInteger)
    ensures v.VInt? && !IsScore(v) ==> r == Failure(ScoreNegative)
  {
    if !v.VInt? then Failure(ScoreNotInteger)
    else if v.i < 0 then Failure(ScoreNegative)
    else Success(v.i)
  }

  /** `Attributes`: height and weight, each an `int` or `float` as given. */
  datatype Attributes = Attributes(height: Value, weight: Value) {

    predicate Valid() {
      IsPositiveNumber(height) && IsPositiveNumber(weight)
    }

    /** The `height` setter: on success only the height changes. */
    function SetHeight(v: Value): (r: Result<Attributes>)
      ensures r.Success? <==> IsPositiveNumber(v)
      ensures r.Success? ==> r.value.height == v && r.value.weight == weight
      ensures r.Failure? ==> r.error == if IsNumber(v) then HeightNotPositive else HeightNotNumber
    {
      var h :- CheckPositive(v, HeightNotNumber, HeightNotPositive);
      Success(this.(height := h))
    }

    /** The `weight` setter: on success only the weight changes. */
    function SetWeight(v: Value): (r: Result<Attributes>)
      ensures r.Success? <==> IsPositiveNumber(v)
      ensures r.Success? ==> r.value.weight == v && r.value.height == height
      ensures r.Failure? ==> r.error == if IsNumber(v) then WeightNotPositive else WeightNotNumber
    {
      var w :- CheckPositive(v, WeightNotNumber, WeightNotPositive);
      Success(this.(weight := w))
    }
  }

  /** `Attributes.__init__`: the height setter, then the weight setter. */
  function NewAttributes(height: Value, weight: Value): (r: Result<Attributes>)
    ensures r.Success? <==> IsPositiveNumber(height) && IsPositiveNumber(weight)
    ensures r.Success? ==> r.value == Attributes(height, weight) && r.value.Valid()
    ensures !IsPositiveNumber(height) ==> r.Failure? && Some(r.error) == ErrorOf(CheckPositive(height, HeightNotNumber, HeightNotPositive))
    ensures IsPositiveNumber(height) && !IsPositiveNumber(weight) ==>
              r.Failure? && Some(r.error) == ErrorOf(CheckPositive(weight, WeightNotNumber, WeightNotPositive))
  {
    var h :- CheckPositive(height, HeightNotNumber, HeightNotPositive);
    var w :- CheckPositive(weight, WeightNotNumber, WeightNotPositive);
    Success(Attributes(h, w))
  }

  /** `Skills`: shooting and passing ratings. */
  datatype Skills = Skills(shooting: int, passing: int) {

    predicate Valid() {
      0 <= shooting <= 100 && 0 <= passing <= 100
    }

    /** The `shooting` setter: on success only the shooting rating changes. */
    function SetShooting(v: Value): (r: Result<Skills>)
      ensures r.Success? <==> IsSkill(v)
      ensures r.Success? ==> r.value.shooting == v.i && r.value.passing == passing
      ensures r.Failure? ==> r.error == if v.VInt? then ShootingOutOfRange else ShootingNotInteger
    {
      var s :- CheckSkill(v, ShootingNotInteger, ShootingOutOfRange);
      Success(this.(shooting := s))
    }

    /** The `passing` setter: on success only the passing rating changes. */
    function SetPassing(v: Value): (r: Result<Skills>)
      ensures r.Success? <==> IsSkill(v)
      ensures r.Success? ==> r.value.passing == v.i && r.value.shooting == shooting
      ensures r.Failure? ==> r.error == if v.VInt? then PassingOutOfRange else PassingNotInteger
    {
      var p :- CheckSkill(v, PassingNotInteger, PassingOutOfRange);
      Success(this.(passing := p))
    }
  }

  /** `Skills.__init__`: the shooting setter, then the passing setter. */
  function NewSkills(shooting: Value, passing: Value): (r: Result<Skills>)
    ensures r.Success? <==> IsSkill(shooting) && IsSkill(passing)
    ensures r.Success? ==> r.value == Skills(shooting.i, passing.i) && r.value.Valid()
    ensures !IsSkill(shooting) ==> r.Failure? && Some(r.error) == ErrorOf(CheckSkill(shooting, ShootingNotInteger, ShootingOutOfRange))
    ensures IsSkill(shooting) && !IsSkill(passing) ==>
              r.Failure? && Some(r.error) == ErrorOf(CheckSkill(passing, PassingNotInteger, PassingOutOfRange))
  {
    var s :- CheckSkill(shooting, ShootingNotInteger, ShootingOutOfRange);
    var p :- CheckSkill(passing, PassingNotInteger, PassingOutOfRange);
    Success(Skills(s, p))
  }

  /** `Position`: a position name. */
  datatype Position = Position(name: string)

  /** `Position.__init__`, which is its `name` setter. */
  function NewPosition(name: Value): (r: Result<Position>)
    ensures r.Success? <==> IsNonEmptyText(name)
    ensures r.Success? ==> r.value.name == name.s
    ensures !name.VStr? ==> r == Failure(PositionNotString)
    ensures name.VStr? && name.s == [] ==> r == Failure(PositionEmpty)
  {
    var n :- CheckText(name, PositionNotString, PositionEmpty);
    Success(Position(n))
  }

  /** The validated fields of a `Player`: everything but its game list. */
  datatype PlayerFields = PlayerFields(name: string, position: Position,
                                       attributes: Attributes, skills: Skills) {

    predicate Valid() {
      |name| > 0 && |position.name| > 0 && attributes.Valid() && skills.Valid()
    }

    /** Whether `save_to_db` can bind every `int` field as a SQLite
        INTEGER; a `float` height or weight binds as REAL. */
    predicate Bindable() {
      (attributes.height.VInt? ==> BindsAsInteger(attributes.height.i))
      && (attributes.weight.VInt? ==> BindsAsInteger(attributes.weight.i))
      && BindsAsInteger(skills.shooting) && BindsAsInteger(skills.passing)
    }

    /** The fields as they come back from the table, where the REAL columns
        turn an `int` height or weight into a `float`. */
    function Stored(): (p: PlayerFields)
      requires Valid()
      ensures p.Valid() && p.Bindable()
      ensures p.name == name && p.position == position && p.skills == skills
      ensures NumberValue(p.attributes.height) == NumberValue(attributes.height)
      ensures NumberValue(p.attributes.weight) == NumberValue(attributes.weight)
    {
      this.(attributes := Attributes(VReal(NumberValue(attributes.height)),
                                     VReal(NumberValue(attributes.weight))))
    }

    /** The row `save_to_db` inserts. */
    function Row(): (row: PlayerRow)
      requires Valid()
      ensures row.name == name && row.position == position.name
      ensures row.height == NumberValue(attributes.height) && row.weight == NumberValue(attributes.weight)
      ensures row.shooting == skills.shooting && row.passing == skills.passing
    {
      PlayerRow(name, position.name, NumberValue(attributes.height), NumberValue(attributes.weight),
                skills.shooting, skills.passing)
    }
  }

  /** The error each `Player.__init__` field would raise on its own, in the
      order the constructor runs the setters. */
  function PlayerFieldErrors(name: Value, position: Value, height: Value, weight: Value,
                             shooting: Value, passing: Value): seq<Option<string>>
  {
    [ ErrorOf(CheckText(name, NameNotString, NameEmpty)),
      ErrorOf(CheckText(position, PositionNotString, PositionEmpty)),
      ErrorOf(CheckPositive(height, HeightNotNumber, HeightNotPositive)),
      ErrorOf(CheckPositive(weight, WeightNotNumber, WeightNotPositive)),
      ErrorOf(CheckSkill(shooting, ShootingNotInteger, ShootingOutOfRange)),
      ErrorOf(CheckSkill(passing, PassingNotInteger, PassingOutOfRange)) ]
  }

  /** `Player.__init__` without the game list: either every field is valid and
      kept exactly as given, or the error is that of the first invalid field
      in the order name, position, height, weight, shooting, passing. */
  function NewPlayer(name: Value, position: Value, height: Value, weight: Value,
                     shooting: Value, passing: Value): (r: Result<PlayerFields>)
    ensures r.Success? <==> IsNonEmptyText(name) && IsNonEmptyText(position)
                            && IsPositiveNumber(height) && IsPositiveNumber(weight)
                            && IsSkill(shooting) && IsSkill(passing)
    ensures r.Success? ==> r.value.Valid()
                           && r.value == PlayerFields(name.s, Position(position.s), Attributes(height, weight),
                                                      Skills(shooting.i, passing.i))
    ensures r.Failure? ==>
              Some(r.error) == FirstError(PlayerFieldErrors(name, position, height, weight, shooting, passing))
  {
    var n :- CheckText(name, NameNotString, NameEmpty);
    var p :- NewPosition(position);
    var a := NewAttributes(height, weight);
    if a.Failure? then
      FirstErrorAt(PlayerFieldErrors(name, position, height, weight, shooting, passing),
                   if IsPositiveNumber(height) then 3 else 2);
      Failure(a.error)
    else
      var s := NewSkills(shooting, passing);
      if s.Failure? then
        FirstErrorAt(PlayerFieldErrors(name, position, height, weight, shooting, passing),
                     if IsSkill(shooting) then 5 else 4);
        Failure(s.error)
      else
        Success(PlayerFields(n, p, a.value, s.value))
  }

  /** A players row read back through `Player(p[1], ..., p[6])`: it reads
      back exactly when every column is in range, and the player it gives
      saves back to the very same row. */
  function PlayerFromRow(row: PlayerRow): (r: Result<PlayerFields>)
    ensures r.Success? <==> |row.name| > 0 && |row.position| > 0 && row.height > 0.0 && row.weight > 0.0
                            && 0 <= row.shooting <= 100 && 0 <= row.passing <= 100
    ensures r.Success? ==> r.value.Valid() && r.value.Bindable() && r.value.Row() == row
  {
    NewPlayer(VStr(row.name), VStr(row.position), VReal(row.height), VReal(row.weight),
              VInt(row.shooting), VInt(row.passing))
  }

  /** `Player.get_all_from_db`: every players row, in table order, through the
      validating constructor; the first row that fails raises. */
  function PlayersFromRows(rows: seq<PlayerRow>): (r: Result<seq<PlayerFields>>)
    ensures r.Success? <==> forall i :: 0 <= i < |rows| ==> PlayerFromRow(rows[i]).Success?
    ensures r.Success? ==> |r.value| == |rows|
                           && forall i :: 0 <= i < |rows| ==> r.value[i].Valid() && r.value[i].Row() == rows[i]
    ensures r.Failure? ==> exists i :: 0 <= i < |rows| && PlayerFromRow(rows[i]) == Failure(r.error)
                             && forall j :: 0 <= j < i ==> PlayerFromRow(rows[j]).Success?
  {
    MapAll(rows, PlayerFromRow)
  }

  /** A saved player reads back with the same fields, numbers widened to
      `float` by the REAL columns. */
  lemma PlayerRowRoundTrip(p: PlayerFields)
    requires p.Valid()
    ensures PlayerFromRow(p.Row()) == Success(p.Stored())
    ensures p.Stored().Row() == p.Row()
  {
  }

  /** The validated fields of a `Game`, as a value: what a games row holds
      and what the listings show. */
  datatype GameFields = GameFields(date: string, playerName: string, score: int) {

    predicate Valid() {
      |date| > 0 && score >= 0
    }

    /** Whether `save_to_db` can bind the score as a SQLite INTEGER. */
    predicate Bindable() {
      BindsAsInteger(score)
    }

    /** The row `save_to_db` inserts. */
    function Row(): (row: GameRow)
      ensures row.date == date && row.playerName == playerName && row.score == score
    {
      GameRow(date, playerName, score)
    }
  }

  /** `Game.__init__`: the date setter, the unchecked player name, then the
      score setter. */
  function NewGame(date: Value, playerName: string, score: Value): (r: Result<GameFields>)
    ensures r.Success? <==> IsNonEmptyText(date) && IsScore(score)
    ensures r.Success? ==> r.value == GameFields(date.s, playerName, score.i) && r.value.Valid()
    ensures !IsNonEmptyText(date) ==> r.Failure? && Some(r.error) == ErrorOf(CheckText(date, DateNotString, DateEmpty))
    ensures IsNonEmptyText(date) && !IsScore(score) ==> r.Failure? && Some(r.error) == ErrorOf(CheckScore(score))
  {
    var d :- CheckText(date, DateNotString, DateEmpty);
    var s :- CheckScore(score);
    Success(GameFields(d, playerName, s))
  }

  /** A games row read back through `Game(g[1], g[2], g[3])`: it reads back
      exactly when its date is non-empty and its score not negative, and the
      game it gives saves back to the very same row. */
  function GameFromRow(row: GameRow): (r: Result<GameFields>)
    ensures r.Success? <==> |row.date| > 0 && row.score >= 0
    ensures r.Success? ==> r.value.Valid() && r.value.Row() == row
    ensures r.Failure? ==> r.error == if |row.date| == 0 then DateEmpty else ScoreNegative
  {
    NewGame(VStr(row.date), row.playerName, VInt(row.score))
  }

  /** `Game.get_all_from_db`: every games row, in table order, through the
      validating constructor; the first row that fails raises. */
  function GamesFromRows(rows: seq<GameRow>): (r: Result<seq<GameFields>>)
    ensures r.Success? <==> forall i :: 0 <= i < |rows| ==> |rows[i].date| > 0 && rows[i].score >= 0
    ensures r.Success? ==> |r.value| == |rows|
                           && forall i :: 0 <= i < |rows| ==> r.value[i].Valid() && r.value[i].Row() == rows[i]
    ensures r.Failure? ==> exists i :: 0 <= i < |rows| && GameFromRow(rows[i]) == Failure(r.error)
                             && forall j :: 0 <= j < i ==> GameFromRow(rows[j]).Success?
  {
    MapAll(rows, GameFromRow)
  }

  /** A saved valid game reads back unchanged. */
  lemma GameRowRoundTrip(g: GameFields)
    requires g.Valid()
    ensures GameFromRow(g.Row()) == Success(g)
  {
  }

  /** `Game`: a date, the name of the player it belongs to, and a score. The
      date and score setters check their value and update the object in
      place; `player_name` is a plain attribute that goes through no check. */
  class Game {
    var date: string
    var playerName: string
    var score: int

    function Fields(): GameFields
      reads this
    {
      GameFields(date, playerName, score)
    }

    predicate Valid()
      reads this
    {
      Fields().Valid()
    }

    constructor (fields: GameFields)
      requires fields.Valid()
      ensures Valid() && Fields() == fields
    {
      date := fields.date;
      playerName := fields.playerName;
      score := fields.score;
    }

    /** `Game(date, player_name, score)`: a fresh game, or the error of the
        first setter that raises. */
    static method New(date: Value, playerName: string, score: Value) returns (r: Result<Game>)
      ensures r.Success? <==> NewGame(date, playerName, score).Success?
      ensures r.Failure? ==> r.error == NewGame(date, playerName, score).error
      ensures r.Success? ==> fresh(r.value) && r.value.Valid()
                             && r.value.Fields() == NewGame(date, playerName, score).value
    {
      var fields := NewGame(date, playerName, score);
      if fields.Failure? {
        return Failure(fields.error);
      }
      var g := new Game(fields.value);
      r := Success(g);
    }

    /** The `date` setter: a non-empty `str` replaces the date; anything else
        raises and leaves the game as it was. */
    method SetDate(v: Value) returns (error: Option<string>)
      modifies this
      ensures error == ErrorOf(CheckText(v, DateNotString, DateEmpty))
      ensures date == if error.None? then v.s else old(date)
      ensures playerName == old(playerName) && score == old(score)
      ensures old(Valid()) ==> Valid()
    {
      var checked := CheckText(v, DateNotString, DateEmpty);
      if checked.Success? {
        date := checked.value;
        error := None;
      } else {
        error := Some(checked.error);
      }
    }

    /** The `score` setter: a non-negative `int` replaces the score; anything
        else raises and leaves the game as it was. */
    method SetScore(v: Value) returns (error: Option<string>)
      modifies this
      ensures error == ErrorOf(CheckScore(v))
      ensures score == if error.None? then v.i else old(score)
      ensures date == old(date) && playerName == old(playerName)
      ensures old(Valid()) ==> Valid()
    {
      var checked := CheckScore(v);
      if checked.Success? {
        score := checked.value;
        error := None;
      } else {
        error := Some(checked.error);
      }
    }

    /** `Game.save_to_db`: one INSERT into the games table, or the overflow
        the sqlite3 module raises for a score beyond a SQLite INTEGER, in
        which case nothing is written. */
    method SaveToDb(conn: Store) returns (error: Option<string>)
      modifies conn
      ensures error.None? <==> Fields().Bindable()
      ensures error.Some? ==> error.value == IntegerOverflow
      ensures conn.games == if error.None? then old(conn.games) + [Fields().Row()] else old(conn.games)
      ensures conn.players == old(conn.players)
    {
      if !Fields().Bindable() {
        return Some(IntegerOverflow);
      }
      conn.InsertGame(Fields().Row());
      error := None;
    }

    /** `Game.delete_from_db`: removes every game with this date and player
        name, and nothing else. */
    method DeleteFromDb(conn: Store)
      modifies conn
      ensures conn.games == Delete(old(conn.games), DateAndPlayerNameIs(date, playerName))
      ensures conn.players == old(conn.players)
    {
      conn.DeleteGamesAt(date, playerName);
    }
  }

  /** `Player`: validated fields, which the `name` setter may change later, and
      the in-memory list of the `Game` objects that `add_game` appends to.
      The list holds references: a game changed after it was added is seen
      changed through the player. */
  class Player {
    var name: string
    var position: Position
    var attributes: Attributes
    var skills: Skills
    var games: seq<Game>

    function Fields(): PlayerFields
      reads this
    {
      PlayerFields(name, position, attributes, skills)
    }

    predicate Valid()
      reads this
    {
      Fields().Valid()
    }

    constructor (fields: PlayerFields)
      requires fields.Valid()
      ensures Valid() && Fields() == fields && games == []
    {
      name := fields.name;
      position := fields.position;
      attributes := fields.attributes;
      skills := fields.skills;
      games := [];
    }

    /** `Player(name, position, height, weight, shooting, passing)`: a fresh
        player with an empty game list, or the first field's error. */
    static method New(name: Value, position: Value, height: Value, weight: Value,
                      shooting: Value, passing: Value) returns (r: Result<Player>)
      ensures r.Success? <==> NewPlayer(name, position, height, weight, shooting, passing).Success?
      ensures r.Failure? ==> r.error == NewPlayer(name, position, height, weight, shooting, passing).error
      ensures r.Success? ==> fresh(r.value) && r.value.Valid() && r.value.games == []
                             && r.value.Fields() == NewPlayer(name, position, height, weight, shooting, passing).value
    {
      var fields := NewPlayer(name, position, height, weight, shooting, passing);
      if fields.Failure? {
        return Failure(fields.error);
      }
      var p := new Player(fields.value);
      r := Success(p);
    }

    /** The `name` setter: a non-empty `str` replaces the name; anything else
        raises and leaves the player as it was. */
    method SetName(v: Value) returns (error: Option<string>)
      requires Valid()
      modifies this
      ensures Valid()
      ensures error == ErrorOf(CheckText(v, NameNotString, NameEmpty))
      ensures error.None? ==> name == v.s
      ensures error.Some? ==> name == old(name)
      ensures position == old(position) && attributes == old(attributes)
      ensures skills == old(skills) && games == old(games)
    {
      var checked := CheckText(v, NameNotString, NameEmpty);
      if checked.Success? {
        name := checked.value;
        error := None;
      } else {
        error := Some(checked.error);
      }
    }

    /** `add_game`: appends a reference to a `Game` and ignores anything else. */
    method AddGame(x: Value)
      modifies this
      ensures games == if x.VGame? then old(games) + [x.game] else old(games)
      ensures AllGameScores() == if x.VGame? then old(AllGameScores()) + [x.game.score]
                                 else old(AllGameScores())
      ensures Fields() == old(Fields())
    {
      if x.VGame? {
        games := games + [x.game];
      }
    }

    /** `all_game_scores`: the current score of every game in the list, in
        insertion order. */
    function AllGameScores(): (scores: seq<int>)
      reads this, games
      ensures |scores| == |games|
      ensures forall i :: 0 <= i < |games| ==> scores[i] == games[i].score
    {
      seq(|games|, i reads this, games requires 0 <= i < |games| => games[i].score)
    }

    /** `Player.save_to_db`: one INSERT into the players table, or the
        overflow the sqlite3 module raises for an `int` height or weight
        beyond a SQLite INTEGER, in which case nothing is written. */
    method SaveToDb(conn: Store) returns (error: Option<string>)
      requires Valid()
      modifies conn
      ensures error.None? <==> Fields().Bindable()
      ensures error.Some? ==> error.value == IntegerOverflow
      ensures conn.players == if error.None? then old(conn.players) + [Fields().Row()] else old(conn.players)
      ensures conn.games == old(conn.games)
    {
      if !Fields().Bindable() {
        return Some(IntegerOverflow);
      }
      conn.InsertPlayer(Fields().Row());
      error := None;
    }

    /** `Player.delete_from_db`: removes every player row with this name and,
        by hand, every game row with this player name; all other rows stay,
        in order. */
    method DeleteFromDb(conn: Store)
      modifies conn
      ensures conn.players == Delete(old(conn.players), NameIs(name))
      ensures conn.games == Delete(old(conn.games), PlayerNameIs(name))
      ensures Select(conn.players, NameIs(name)) == []
      ensures Select(conn.games, PlayerNameIs(name)) == []
    {
      conn.DeletePlayersNamed(name);
      conn.DeleteGamesOf(name);
      DeleteIdempotent(old(conn.players), NameIs(name));
      DeleteIdempotent(old(conn.games), PlayerNameIs(name));
    }
  }

  /** A player keeps the `Game` objects it is given, not copies: a score set
      through the game after `add_game` shows in `all_game_scores`. */
  method SharedGameScores() returns (before: seq<int>, after: seq<int>)
    ensures before == [10] && after == [25]
  {
    var p := new Player(PlayerFields("Alice", Position("Guard"), Attributes(VReal(180.0), VReal(75.0)),
                                     Skills(80, 70)));
    var g := new Game(GameFields("2024-01-15", "Alice", 10));
    p.AddGame(VGame(g));
    before := p.AllGameScores();
    var error := g.SetScore(VInt(25));
    after := p.AllGameScores();
  }
}
