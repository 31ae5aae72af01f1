/** The browser client of the Flask server (static/js/game.js): a copy of the
    server's record that the socket handlers overwrite field by field, and
    the drag gesture. The dragged token is the very object held in the token
    list, so moving it moves the drawn token until the next server update
    replaces the list. */
module BrowserClient {
  import opened Common

  const TokenRadius: int := 15

  /** A token object as the client holds it; only its position changes. */
  class WebToken {
    const id: string
    const color: Color
    var x: int
    var y: int

    constructor (id: string, color: Color, x: int, y: int)
      ensures this.id == id && this.color == color && this.x == x && this.y == y
    {
      this.id := id;
      this.color := color;
      this.x := x;
      this.y := y;
    }
  }

  /** The `dice_rolled` payload. */
  datatype DiceRolled = DiceRolled(dice: seq<Face>, whiteCount: int, rollHistory: seq<ScoredRoll>)

  /** The `tokens_updated` payload. */
  datatype TokensUpdated = TokensUpdated(tokens: seq<WebToken>, moveCount: int)

  /** The `game_state` payload: the whole record. */
  datatype FullState = FullState(
    tokens: seq<WebToken>,
    dice: seq<Face>,
    rollHistory: seq<ScoredRoll>,
    whiteCount: int,
    moveCount: int)

  /** The `move_token` request. */
  datatype MoveRequest = MoveRequest(tokenId: string, x: int, y: int)

  /** Token centres, in list order. */
  function Centres(tokens: seq<WebToken>): seq<Point>
    reads tokens
  {
    seq(|tokens|, k requires 0 <= k < |tokens| reads tokens => Point(tokens[k].x, tokens[k].y))
  }

  /** The client's globals: `gameState`, the canvas size and the drag state. */
  class Board {
    const width: int
    const height: int
    var tokens: seq<WebToken>
    var dice: seq<Face>
    var rollHistory: seq<ScoredRoll>
    var whiteCount: int
    var moveCount: int
    var dragging: WebToken?
    var dragOffsetX: int
    var dragOffsetY: int

    /** The initial globals, on a canvas of the given size. */
    constructor (width: int, height: int)
      ensures this.width == width && this.height == height
      ensures tokens == [] && dice == AllWhite && rollHistory == []
      ensures whiteCount == 0 && moveCount == 0
      ensures dragging == null && dragOffsetX == 0 && dragOffsetY == 0
    {
      this.width := width;
      this.height := height;
      tokens := [];
      dice := AllWhite;
      rollHistory := [];
      whiteCount := 0;
      moveCount := 0;
      dragging := null;
      dragOffsetX := 0;
      dragOffsetY := 0;
    }

    /** `game_state`: the whole record is replaced. */
    method OnGameState(s: FullState)
      modifies this
      ensures tokens == s.tokens && dice == s.dice && rollHistory == s.rollHistory
      ensures whiteCount == s.whiteCount && moveCount == s.moveCount
      ensures dragging == old(dragging) && dragOffsetX == old(dragOffsetX) && dragOffsetY == old(dragOffsetY)
    {
      tokens, dice, rollHistory, whiteCount, moveCount :=
        s.tokens, s.dice, s.rollHistory, s.whiteCount, s.moveCount;
    }

    /** `dice_rolled`: only the dice, the white count and the history change. */
    method OnDiceRolled(d: DiceRolled)
      modifies this
      ensures dice == d.dice && whiteCount == d.whiteCount && rollHistory == d.rollHistory
      ensures tokens == old(tokens) && moveCount == old(moveCount)
      ensures dragging == old(dragging) && dragOffsetX == old(dragOffsetX) && dragOffsetY == old(dragOffsetY)
    {
      dice := d.dice;
      whiteCount := d.whiteCount;
      rollHistory := d.rollHistory;
    }

    /** `tokens_updated`: only the tokens and the move counter change. */
    method OnTokensUpdated(u: TokensUpdated)
      modifies this
      ensures tokens == u.tokens && moveCount == u.moveCount
      ensures dice == old(dice) && whiteCount == old(whiteCount) && rollHistory == old(rollHistory)
      ensures dragging == old(dragging) && dragOffsetX == old(dragOffsetX) && dragOffsetY == old(dragOffsetY)
    {
      tokens := u.tokens;
      moveCount := u.moveCount;
    }

    /** constrainToken: pull the token's centre at least a radius inside the
        canvas; a token already inside stays where it is. */
    method ConstrainToken(t: WebToken)
      modifies t
      ensures t.x == Clamp(old(t.x), TokenRadius, width)
      ensures t.y == Clamp(old(t.y), TokenRadius, height)
      ensures width >= 2 * TokenRadius ==> TokenRadius <= t.x <= width - TokenRadius
      ensures height >= 2 * TokenRadius ==> TokenRadius <= t.y <= height - TokenRadius
    {
      t.x := Max(TokenRadius, Min(width - TokenRadius, t.x));
      t.y := Max(TokenRadius, Min(height - TokenRadius, t.y));
    }

    /** startDragging: scan from the last token down and grab the first one
        whose centre is within the radius of the pointer. */
    method StartDragging(px: int, py: int)
      modifies this`dragging, this`dragOffsetX, this`dragOffsetY
      ensures var i := TopmostHit(Centres(tokens), Point(px, py), TokenRadius);
              if i >= 0 then
                && dragging == tokens[i]
                && dragOffsetX == px - tokens[i].x && dragOffsetY == py - tokens[i].y
              else
                && dragging == old(dragging)
                && dragOffsetX == old(dragOffsetX) && dragOffsetY == old(dragOffsetY)
    {
      ghost var centres := Centres(tokens);
      var i := |tokens|;
      while i > 0
        invariant 0 <= i <= |tokens|
        invariant forall k :: i <= k < |tokens| ==> !Within(centres[k], Point(px, py), TokenRadius)
        invariant dragging == old(dragging)
        invariant dragOffsetX == old(dragOffsetX) && dragOffsetY == old(dragOffsetY)
      {
        i := i - 1;
        var token := tokens[i];
        var dx := px - token.x;
        var dy := py - token.y;
        if dx * dx + dy * dy <= TokenRadius * TokenRadius {
          assert Within(centres[i], Point(px, py), TokenRadius);
          dragging := token;
          dragOffsetX := dx;
          dragOffsetY := dy;
          return;
        }
      }
    }

    /** The mousemove handler: while dragging, the token follows the pointer
        less the grab offset and is then constrained to the canvas. */
    method MouseMove(px: int, py: int)
      modifies dragging
      ensures dragging == old(dragging)
      ensures dragging != null ==>
                && dragging.x == Clamp(px - dragOffsetX, TokenRadius, width)
                && dragging.y == Clamp(py - dragOffsetY, TokenRadius, height)
      ensures dragging != null && width >= 2 * TokenRadius && height >= 2 * TokenRadius ==>
                && TokenRadius <= dragging.x <= width - TokenRadius
                && TokenRadius <= dragging.y <= height - TokenRadius
    {
      if dragging != null {
        dragging.x := px - dragOffsetX;
        dragging.y := py - dragOffsetY;
        ConstrainToken(dragging);
      }
    }

    /** sendTokenMove: nothing when no token is dragged; otherwise one
        `move_token` request with the token's id and position, and the drag
        ends. */
    method SendTokenMove() returns (msg: Option<MoveRequest>)
      modifies this`dragging
      ensures old(dragging) == null ==> msg == None
      ensures old(dragging) != null ==>
                msg == Some(MoveRequest(old(dragging).id, old(dragging.x), old(dragging.y)))
      ensures dragging == null
    {
      if dragging == null {
        return None;
      }
      msg := Some(MoveRequest(dragging.id, dragging.x, dragging.y));
      dragging := null;
    }

    /** The mouseleave handler drops the drag without sending anything. */
    method MouseLeave()
      modifies this`dragging
      ensures dragging == null
    {
      dragging := null;
    }
  }
}
