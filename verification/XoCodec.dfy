/** How the games at one address are written as text. */
module XoCodec {
  import opened Common
  import opened Outcomes
  import opened XoRules
  import Sorting
  import opened Bags
  import Text

  type Games = map<string, Game>

  function Fields(name: string, game: Game): seq<string> {
    [name, game.board, game.state, game.player1, game.player2]
  }

  function GameLine(name: string, game: Game): string {
    Text.Join(Fields(name, game), ',')
  }

  // ----- reading -----

  /** The game on one line; None is the ValueError of a line that has not five fields. */
  function ReadLine(line: string): Option<Game> {
    var fields := Text.Split(line, ',');
    if |fields| != 5 then None else Some(Game(fields[0], fields[1], fields[2], fields[3], fields[4]))
  }

  /** The lines read so far as a dict; a later line for the same name replaces an earlier one. */
  function ReadLines(lines: seq<string>): Option<Games> {
    if lines == [] then Some(map[])
    else
      var before := ReadLines(lines[..|lines| - 1]);
      var game := ReadLine(lines[|lines| - 1]);
      if before.None? || game.None? then None else Some(before.value[game.value.name := game.value])
  }

  function Deserialize(data: string): Result<Games, Failure> {
    match ReadLines(Text.Split(data, '|'))
    case Some(games) => Ok(games)
    case None => Err(Internal(UndecodableState))
  }

  lemma {:induction false} ReadLinesFails(lines: seq<string>, k: nat)
    requires k < |lines| && ReadLine(lines[k]).None?
    ensures ReadLines(lines) == None
  {
    if k < |lines| - 1 {
      ReadLinesFails(lines[..|lines| - 1], k);
    }
  }

  lemma {:induction false} ReadLinesReads(lines: seq<string>)
    requires forall line | line in lines :: HasFiveFields(line)
    ensures ReadLines(lines).Some?
    decreases |lines|
  {
    if lines != [] {
      var before := lines[..|lines| - 1];
      assert forall line | line in before :: line in lines;
      assert lines[|lines| - 1] in lines;
      ReadLinesReads(before);
    }
  }

  ghost predicate HasFiveFields(line: string) {
    |Text.Split(line, ',')| == 5
  }

  /** A text cannot be read exactly if some line of it has not five fields. */
  lemma UnreadableIff(data: string)
    ensures Deserialize(data) == Err(Internal(UndecodableState))
       <==> exists line | line in Text.Split(data, '|') :: !HasFiveFields(line)
  {
    var lines := Text.Split(data, '|');
    if exists line | line in lines :: !HasFiveFields(line) {
      var line :| line in lines && !HasFiveFields(line);
      var k :| 0 <= k < |lines| && lines[k] == line;
      ReadLinesFails(lines, k);
    } else {
      ReadLinesReads(lines);
    }
  }

  method DeserializeData(data: string) returns (r: Result<Games, Failure>)
    ensures r == Deserialize(data)
  {
    var lines := Text.Split(data, '|');
    var games: Games := map[];
    for i := 0 to |lines|
      invariant ReadLines(lines[..i]) == Some(games)
    {
      var fields := Text.Split(lines[i], ',');
      if |fields| != 5 {
        ReadLinesFails(lines, i);
        return Err(Internal(UndecodableState));
      }
      games := games[fields[0] := Game(fields[0], fields[1], fields[2], fields[3], fields[4])];
      assert lines[..i + 1][..i] == lines[..i];
    }
    assert lines[..|lines|] == lines;
    return Ok(games);
  }

  // ----- writing -----

  /** The text that stands for a dict: its lines in order, whatever order the dict lists them in. */
  ghost function Serialize(games: Games): string {
    Text.Join(Sorting.SortedBag(Bag(GameLine, games)), '|')
  }

  /** The loop takes the dict's entries in no particular order; the result does not depend on it. */
  method SerializeGames(games: Games) returns (data: string)
    ensures data == Serialize(games)
  {
    var gameStrs := CollectLines(GameLine, games);
    Sorting.SortIsCanonical(gameStrs);
    data := Text.Join(Sorting.Sort(Sorting.LexLeq, gameStrs), '|');
  }

  // ----- the round trip -----

  ghost predicate FieldsFree(game: Game) {
    && ',' !in game.name && '|' !in game.name
    && ',' !in game.board && '|' !in game.board
    && ',' !in game.state && '|' !in game.state
    && ',' !in game.player1 && '|' !in game.player1
    && ',' !in game.player2 && '|' !in game.player2
  }

  /** A dict under whose keys are the games of those names, with no separator in any field. */
  ghost predicate Storable(games: Games) {
    forall name | name in games :: games[name].name == name && FieldsFree(games[name])
  }

  lemma GameLineSplits(name: string, game: Game)
    requires game.name == name && FieldsFree(game)
    ensures Text.Split(GameLine(name, game), ',') == Fields(name, game)
    ensures '|' !in GameLine(name, game)
  {
    Text.SplitJoin(Fields(name, game), ',');
    Text.JoinFree(Fields(name, game), ',', '|');
  }

  /** The last of a dict's lines is the line of some entry, and the others are those of the rest. */
  lemma LastLine(lines: seq<string>, games: Games) returns (name: string)
    requires Storable(games) && lines != [] && multiset(lines) == Bag(GameLine, games)
    ensures name in games && lines[|lines| - 1] == GameLine(name, games[name])
    ensures games[name].name == name && FieldsFree(games[name]) && Storable(games - {name})
    ensures multiset(lines[..|lines| - 1]) == Bag(GameLine, games - {name})
  {
    var before, line := lines[..|lines| - 1], lines[|lines| - 1];
    assert lines == before + [line];
    assert line in multiset(lines);
    name := BagMember(GameLine, games, line);
    BagOf(GameLine, games, name);
    assert multiset(before) == multiset(lines) - multiset{line};
  }

  /** Reading the lines of a dict, in any order, gives the dict. */
  lemma {:induction false} ReadBag(lines: seq<string>, games: Games)
    requires Storable(games) && multiset(lines) == Bag(GameLine, games)
    ensures ReadLines(lines) == Some(games)
    decreases |lines|
  {
    if lines == [] {
      BagSize(GameLine, games);
    } else {
      var name := LastLine(lines, games);
      ReadBag(lines[..|lines| - 1], games - {name});
      ReadLast(lines, games, name);
    }
  }

  lemma ReadLast(lines: seq<string>, games: Games, name: string)
    requires lines != [] && name in games && games[name].name == name && FieldsFree(games[name])
    requires lines[|lines| - 1] == GameLine(name, games[name])
    requires ReadLines(lines[..|lines| - 1]) == Some(games - {name})
    ensures ReadLines(lines) == Some(games)
  {
    GameLineSplits(name, games[name]);
    assert (games - {name})[name := games[name]] == games;
  }

  lemma SerializeSplits(games: Games)
    requires Storable(games) && games != map[]
    ensures Text.Split(Serialize(games), '|') == Sorting.SortedBag(Bag(GameLine, games))
  {
    var lines := Sorting.SortedBag(Bag(GameLine, games));
    Sorting.SortedBagCorrect(Bag(GameLine, games));
    BagSize(GameLine, games);
    assert |multiset(lines)| == |lines|;
    forall line | line in lines
      ensures '|' !in line
    {
      assert line in multiset(lines);
      var name := BagMember(GameLine, games, line);
      GameLineSplits(name, games[name]);
    }
    Text.SplitJoin(lines, '|');
  }

  lemma JoinHead(part: string, rest: seq<string>)
    requires rest != []
    ensures Text.Join([part] + rest, ',') == part + ("," + Text.Join(rest, ','))
  {
    assert ([part] + rest)[1..] == rest;
    assert part + [','] + Text.Join(rest, ',') == part + ("," + Text.Join(rest, ','));
  }

  lemma JoinFive(a: string, b: string, c: string, d: string, e: string)
    ensures Text.Join([a, b, c, d, e], ',') == a + ("," + (b + ("," + (c + ("," + (d + ("," + e)))))))
  {
    assert [a] + [b, c, d, e] == [a, b, c, d, e];
    JoinHead(a, [b, c, d, e]);
    assert [b] + [c, d, e] == [b, c, d, e];
    JoinHead(b, [c, d, e]);
    assert [c] + [d, e] == [c, d, e];
    JoinHead(c, [d, e]);
    assert [d] + [e] == [d, e];
    JoinHead(d, [e]);
  }

  /** The text of one game: its name, board, state and two players, between commas. */
  ghost function LineText(name: string, game: Game): string {
    name + ("," + (game.board + ("," + (game.state + ("," + (game.player1 + ("," + game.player2)))))))
  }

  /**
   * What a dict is written as: lines between bars, in order of their characters, one for each game,
   * with its name, board, state and two players between commas.
   */
  lemma SerializeText(games: Games)
    requires Storable(games) && games != map[]
    ensures var lines := Text.Split(Serialize(games), '|');
            && |lines| == |games|
            && (forall i, j | 0 <= i < j < |lines| :: Sorting.LexLeq(lines[i], lines[j]))
            && forall name | name in games ::
                 LineText(name, games[name]) in lines
  {
    var lines := Sorting.SortedBag(Bag(GameLine, games));
    SerializeSplits(games);
    Sorting.SortedBagCorrect(Bag(GameLine, games));
    BagSize(GameLine, games);
    assert |multiset(lines)| == |lines|;
    forall name | name in games
      ensures GameLine(name, games[name]) in lines
    {
      BagOf(GameLine, games, name);
      assert GameLine(name, games[name]) in multiset(lines);
    }
    forall name | name in games
      ensures GameLine(name, games[name]) == LineText(name, games[name])
    {
      var game := games[name];
      JoinFive(name, game.board, game.state, game.player1, game.player2);
    }
  }

  lemma EmptyTextUnreadable()
    ensures Deserialize("") == Err(Internal(UndecodableState))
  {
    assert Text.Split("", '|') == [""];
    ReadLinesFails([""], 0);
  }

  /** Reading back what was written gives the dict, unless the dict is empty. */
  lemma RoundTrip(games: Games)
    requires Storable(games)
    ensures Deserialize(Serialize(games)) == Ok(games) <==> games != map[]
    ensures games != map[] ==> Serialize(games) != ""
  {
    var lines := Sorting.SortedBag(Bag(GameLine, games));
    Sorting.SortedBagCorrect(Bag(GameLine, games));
    EmptyTextUnreadable();
    if games == map[] {
      assert |multiset(lines)| == 0;
      assert Serialize(games) == "";
    } else {
      SerializeSplits(games);
      ReadBag(lines, games);
    }
  }

  // ----- which texts are the writing of what they read as -----

  /** A line that reads as a game is the line that game is written as. */
  lemma LineReadBack(line: string)
    requires '|' !in line && ReadLine(line).Some?
    ensures FieldsFree(ReadLine(line).value)
    ensures GameLine(ReadLine(line).value.name, ReadLine(line).value) == line
  {
    var f := Text.Split(line, ',');
    Text.SplitFree(line, ',');
    Text.SplitKeepsFree(line, ',', '|');
    Text.JoinSplit(line, ',');
    assert f == [f[0], f[1], f[2], f[3], f[4]];
  }

  /** What a readable text reads as can be stored again, and has at most one game for each line. */
  lemma {:induction false} ReadIsStorable(lines: seq<string>)
    requires Text.Free('|', lines) && ReadLines(lines).Some?
    ensures Storable(ReadLines(lines).value) && |ReadLines(lines).value| <= |lines|
    decreases |lines|
  {
    if lines != [] {
      var before, line := lines[..|lines| - 1], lines[|lines| - 1];
      ReadIsStorable(before);
      LineReadBack(line);
      var games, game := ReadLines(before).value, ReadLine(line).value;
      assert games[game.name := game].Keys == games.Keys + {game.name};
    }
  }

  lemma FreshName(games: Games, name: string, game: Game)
    requires |games[name := game]| == |games| + 1
    ensures name !in games
    ensures Bag(GameLine, games[name := game]) == multiset{GameLine(name, game)} + Bag(GameLine, games)
  {
    var all := games[name := game];
    assert all.Keys == games.Keys + {name};
    BagOf(GameLine, all, name);
    assert all - {name} == games;
  }

  lemma OneMoreLine(before: seq<string>, line: string, games: Games, game: Game)
    requires '|' !in line && ReadLine(line) == Some(game)
    requires |games[game.name := game]| == |games| + 1
    requires Bag(GameLine, games) == multiset(before)
    ensures Bag(GameLine, games[game.name := game]) == multiset(before + [line])
  {
    FreshName(games, game.name, game);
    LineReadBack(line);
  }

  lemma KeysGrow(games: Games, game: Game)
    ensures |games| <= |games[game.name := game]| <= |games| + 1
  {
    assert games[game.name := game].Keys == games.Keys + {game.name};
  }

  /** The last step of reading. */
  lemma ReadStep(lines: seq<string>) returns (games: Games, game: Game)
    requires lines != [] && Text.Free('|', lines) && ReadLines(lines).Some?
    ensures ReadLines(lines[..|lines| - 1]) == Some(games) && ReadLine(lines[|lines| - 1]) == Some(game)
    ensures ReadLines(lines) == Some(games[game.name := game])
    ensures |games| < |lines| && |games[game.name := game]| <= |games| + 1
    ensures Text.Free('|', lines[..|lines| - 1]) && '|' !in lines[|lines| - 1]
  {
    games, game := ReadLines(lines[..|lines| - 1]).value, ReadLine(lines[|lines| - 1]).value;
    ReadIsStorable(lines[..|lines| - 1]);
    KeysGrow(games, game);
  }

  /** If there is a game for each line, the lines are those of the games. */
  lemma {:induction false} ReadAllDistinct(lines: seq<string>, all: Games)
    requires Text.Free('|', lines) && ReadLines(lines) == Some(all) && |all| == |lines|
    ensures Bag(GameLine, all) == multiset(lines)
    decreases |lines|
  {
    if lines == [] {
      assert all == map[];
    } else {
      var before, line := lines[..|lines| - 1], lines[|lines| - 1];
      var games, game := ReadStep(lines);
      ReadAllDistinct(before, games);
      OneMoreLine(before, line, games, game);
      assert lines == before + [line];
    }
  }

  /**
   * A readable text is what its games are written as exactly when its lines are in order and
   * no name occurs in two of them.
   */
  lemma CanonicalText(data: string)
    requires Deserialize(data).Ok?
    ensures var lines, games := Text.Split(data, '|'), Deserialize(data).value;
            Serialize(games) == data <==> Sorting.Sorted(Sorting.LexLeq, lines) && |games| == |lines|
  {
    var lines, games := Text.Split(data, '|'), Deserialize(data).value;
    Text.SplitFree(data, '|');
    ReadIsStorable(lines);
    Sorting.SortedBagCorrect(Bag(GameLine, games));
    BagSize(GameLine, games);
    if Serialize(games) == data {
      RoundTrip(games);
      SerializeSplits(games);
      assert |multiset(lines)| == |lines|;
    } else if Sorting.Sorted(Sorting.LexLeq, lines) && |games| == |lines| {
      ReadAllDistinct(lines, games);
      Sorting.LexTotalOrder();
      Sorting.SortedUnique(Sorting.LexLeq, lines, Sorting.SortedBag(Bag(GameLine, games)));
      Text.JoinSplit(data, '|');
    }
  }
}
