/** The authoritative game state of the Flask-SocketIO server (app.py): one
    shared record that the roll, move and reset handlers change in place.
    The newest roll sits at the FRONT of the history, a roll with no white
    face scores 8, and the move counter counts token moves. */
module FlaskServer {
  import opened Common

  /** The grid cell (column, row) each colour starts in, in colour order. */
  const XPositions: seq<(int, int)> := [(0, 2), (2, 0), (2, 4), (4, 2)]

  const CellSize: int := 120

  /** Tokens of one colour start 20 pixels apart along x. */
  const TokenSpacing: int := 20

  /** The record the server sends whole on `game_state` and `game_reset`. */
  datatype GameState = GameState(
    tokens: seq<Token>,
    dice: seq<Face>,
    rollHistory: seq<ScoredRoll>,
    whiteCount: int,
    moveCount: int)

  function DigitChar(j: nat): char
    requires j < 4
  {
    "0123"[j]
  }

  /** The id "<color>-<j>" of the j-th starting token of a colour. */
  function TokenId(c: Color, j: nat): string
    requires j < 4
  {
    ColorName(c) + "-" + [DigitChar(j)]
  }

  /** Pixel centre of a grid cell along one axis. */
  function CellCentre(cell: int): int
  {
    cell * CellSize + CellSize / 2
  }

  /** Token k of the default list is token k % 4 of colour k / 4: it carries
      that colour and id, and sits in the colour's start cell shifted right
      by 20 pixels per earlier token of the same colour. */
  ghost predicate DefaultLayout(tokens: seq<Token>)
  {
    && |tokens| == 16
    && forall k :: 0 <= k < 16 ==>
         && tokens[k].color == Colors[k / 4]
         && tokens[k].id == TokenId(Colors[k / 4], k % 4)
         && tokens[k].x == CellCentre(XPositions[k / 4].0) + TokenSpacing * (k % 4)
         && tokens[k].y == CellCentre(XPositions[k / 4].1)
  }

  ghost predicate DistinctIds(tokens: seq<Token>)
  {
    forall k, l :: 0 <= k < l < |tokens| ==> tokens[k].id != tokens[l].id
  }

  /** Two starting tokens have the same id only if they are the same token. */
  lemma TokenIdsDistinct(c1: Color, j1: nat, c2: Color, j2: nat)
    requires j1 < 4 && j2 < 4
    requires c1 != c2 || j1 != j2
    ensures TokenId(c1, j1) != TokenId(c2, j2)
  {
    var a, b := TokenId(c1, j1), TokenId(c2, j2);
    assert |a| == |ColorName(c1)| + 2 && |b| == |ColorName(c2)| + 2;
    if c1 == c2 {
      assert a[|a| - 1] == DigitChar(j1) && b[|b| - 1] == DigitChar(j2);
    } else {
      assert |ColorName(c1)| != |ColorName(c2)|;
    }
  }

  /** The default layout has 16 distinct ids, four tokens per colour in the
      order red, blue, green, yellow. */
  lemma DefaultLayoutShape(tokens: seq<Token>)
    requires DefaultLayout(tokens)
    ensures DistinctIds(tokens)
    ensures forall i :: 0 <= i < 4 ==>
              forall k :: 4 * i <= k < 4 * i + 4 ==> tokens[k].color == Colors[i]
  {
    forall k, l | 0 <= k < l < 16
      ensures tokens[k].id != tokens[l].id
    {
      TokenIdsDistinct(Colors[k / 4], k % 4, Colors[l / 4], l % 4);
    }
  }

  /** The layout pins the list down: every reset builds the same tokens. */
  lemma DefaultLayoutUnique(a: seq<Token>, b: seq<Token>)
    requires DefaultLayout(a) && DefaultLayout(b)
    ensures a == b
  {
    assert forall k :: 0 <= k < 16 ==> a[k] == b[k];
  }

  /** reset_game_state's token list, built by its two nested loops. */
  method DefaultTokens() returns (tokens: seq<Token>)
    ensures DefaultLayout(tokens)
    ensures DistinctIds(tokens)
  {
    tokens := [];
    var i := 0;
    while i < 4
      invariant 0 <= i <= 4
      invariant |tokens| == 4 * i
      invariant forall k :: 0 <= k < |tokens| ==>
                  && tokens[k].color == Colors[k / 4]
                  && tokens[k].id == TokenId(Colors[k / 4], k % 4)
                  && tokens[k].x == CellCentre(XPositions[k / 4].0) + TokenSpacing * (k % 4)
                  && tokens[k].y == CellCentre(XPositions[k / 4].1)
    {
      var color := Colors[i];
      var xPix := CellCentre(XPositions[i].0);
      var yPix := CellCentre(XPositions[i].1);
      var j := 0;
      while j < 4
        invariant 0 <= j <= 4
        invariant |tokens| == 4 * i + j
        invariant forall k :: 0 <= k < |tokens| ==>
                    && tokens[k].color == Colors[k / 4]
                    && tokens[k].id == TokenId(Colors[k / 4], k % 4)
                    && tokens[k].x == CellCentre(XPositions[k / 4].0) + TokenSpacing * (k % 4)
                    && tokens[k].y == CellCentre(XPositions[k / 4].1)
      {
        tokens := tokens + [Token(TokenId(color, j), color, xPix + j * TokenSpacing, yPix)];
        j := j + 1;
      }
      i := i + 1;
    }
    DefaultLayoutShape(tokens);
  }

  /** The state reset_game_state returns: the default tokens, four white dice,
      no history and both counters at zero. */
  ghost predicate IsDefaultState(s: GameState)
  {
    && DefaultLayout(s.tokens)
    && s.dice == AllWhite
    && s.rollHistory == []
    && s.whiteCount == 0
    && s.moveCount == 0
  }

  method ResetGameState() returns (s: GameState)
    ensures IsDefaultState(s)
  {
    var tokens := DefaultTokens();
    s := GameState(tokens, AllWhite, [], 0, 0);
  }

  /** Index of the first token with the given id, or |tokens| when none has it. */
  function FirstMatch(tokens: seq<Token>, id: string): (f: nat)
    ensures f <= |tokens|
    ensures forall k :: 0 <= k < f ==> tokens[k].id != id
    ensures f < |tokens| ==> tokens[f].id == id
  {
    if tokens == [] then 0
    else if tokens[0].id == id then 0
    else 1 + FirstMatch(tokens[1..], id)
  }

  /** The global `game_state` dictionary. */
  class Game {
    var tokens: seq<Token>
    var dice: seq<Face>
    var rollHistory: seq<ScoredRoll>
    var whiteCount: int
    var moveCount: int

    /** Four dice, at most five history entries each scored by the rule, the
        newest entry being the current dice and count (before the first roll
        the count is 0), a non-negative move counter, and distinct token ids. */
    ghost predicate Valid()
      reads this
    {
      && |dice| == 4
      && |rollHistory| <= HistoryLimit
      && (forall k :: 0 <= k < |rollHistory| ==> WellScored(rollHistory[k]))
      && (if rollHistory == [] then whiteCount == 0
          else rollHistory[0] == ScoredRoll(dice, whiteCount))
      && moveCount >= 0
      && DistinctIds(tokens)
    }

    function Snapshot(): GameState
      reads this
    {
      GameState(tokens, dice, rollHistory, whiteCount, moveCount)
    }

    /** The module-level `game_state = reset_game_state()`. */
    constructor ()
      ensures Valid() && IsDefaultState(Snapshot())
    {
      var s := ResetGameState();
      DefaultLayoutShape(s.tokens);
      tokens, dice, rollHistory, whiteCount, moveCount :=
        s.tokens, s.dice, s.rollHistory, s.whiteCount, s.moveCount;
    }

    /** handle_roll_dice, with the four random faces as a parameter. */
    method RollDice(faces: seq<Face>)
      requires Valid() && |faces| == 4
      modifies this
      ensures Valid()
      ensures dice == faces
      ensures whiteCount == Score(faces)
      ensures |rollHistory| == Min(|old(rollHistory)| + 1, HistoryLimit)
      ensures rollHistory[0] == ScoredRoll(faces, Score(faces))
      ensures forall k :: 1 <= k < |rollHistory| ==> rollHistory[k] == old(rollHistory)[k - 1]
      ensures tokens == old(tokens) && moveCount == old(moveCount)
    {
      dice := faces;
      var count := CountWhite(dice);
      if count == 0 {
        count := 8;
      }
      whiteCount := count;
      rollHistory := [ScoredRoll(dice, count)] + rollHistory;
      rollHistory := rollHistory[..Min(HistoryLimit, |rollHistory|)];
    }

    /** handle_move_token: overwrite x and y of the first token with the id,
        then count the move whether or not a token matched. */
    method MoveToken(id: string, x: int, y: int)
      requires Valid()
      modifies this
      ensures Valid()
      ensures var f := FirstMatch(old(tokens), id);
              tokens == if f < |old(tokens)| then old(tokens)[f := old(tokens)[f].(x := x, y := y)]
                        else old(tokens)
      ensures |tokens| == |old(tokens)|
      ensures forall k :: 0 <= k < |tokens| ==>
                tokens[k].id == old(tokens)[k].id && tokens[k].color == old(tokens)[k].color
      ensures (forall k :: 0 <= k < |old(tokens)| ==> old(tokens)[k].id != id) ==> tokens == old(tokens)
      ensures moveCount == old(moveCount) + 1
      ensures dice == old(dice) && rollHistory == old(rollHistory) && whiteCount == old(whiteCount)
    {
      var i := 0;
      while i < |tokens| && tokens[i].id != id
        invariant 0 <= i <= |tokens|
        invariant forall k :: 0 <= k < i ==> tokens[k].id != id
      {
        i := i + 1;
      }
      if i < |tokens| {
        tokens := tokens[i := tokens[i].(x := x, y := y)];
      }
      moveCount := moveCount + 1;
    }

    /** handle_reset_game: the whole record becomes the default again. */
    method ResetGame()
      modifies this
      ensures Valid() && IsDefaultState(Snapshot())
    {
      var s := ResetGameState();
      DefaultLayoutShape(s.tokens);
      tokens, dice, rollHistory, whiteCount, moveCount :=
        s.tokens, s.dice, s.rollHistory, s.whiteCount, s.moveCount;
    }
  }

  /** In every valid state the white count is 0 (no roll yet) or a score. */
  lemma ValidWhiteCount(g: Game)
    requires g.Valid()
    ensures g.whiteCount in {0, 1, 2, 3, 4, 8}
  {
    if g.rollHistory != [] {
      assert WellScored(g.rollHistory[0]);
      ScoreRange(g.dice);
    }
  }
}
