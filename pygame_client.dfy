/** The pygame client of the raw-TCP server (client.py): the `tokens`, `dice`
    and `roll_history` globals that incoming messages overwrite, the grab of a
    token under the mouse, the four dice buttons, and the move message sent
    when a drag ends. As in the source, `dragging` is the token dictionary
    itself, so dragging it moves the entry in `tokens`. */
module PygameClient {
  import opened Common
  import TcpServer

  const Height: int := 600

  /** A token can be grabbed within 20 pixels of its centre. */
  const GrabRadius: int := 20

  /** Die i is the open square 60 pixels wide whose left edge is at
      150 + 70 * i and whose top edge is 100 pixels above the window bottom. */
  const DieLeft: int := 150
  const DieStride: int := 70
  const DieSize: int := 60
  const DieTop: int := Height - 100

  /** A token dictionary; only its position is ever written. */
  class PyToken {
    const color: Color
    var x: int
    var y: int

    constructor (x: int, y: int, color: Color)
      ensures this.x == x && this.y == y && this.color == color
    {
      this.x := x;
      this.y := y;
      this.color := color;
    }
  }

  /** A decoded server message, by its `type` field. */
  datatype Incoming =
    | UpdateTokens(tokens: seq<PyToken>)
    | DiceUpdate(dice: seq<Face>, history: seq<ScoredRoll>)
    | Init(tokens: seq<PyToken>, dice: seq<Face>, history: seq<ScoredRoll>)
    | Unrecognised(kind: string)

  function Centres(tokens: seq<PyToken>): seq<Point>
    reads tokens
  {
    seq(|tokens|, k requires 0 <= k < |tokens| reads tokens => Point(tokens[k].x, tokens[k].y))
  }

  /** The token list as it is pickled into a message. */
  function Values(tokens: seq<PyToken>): seq<TcpServer.PlainToken>
    reads tokens
  {
    seq(|tokens|, k requires 0 <= k < |tokens| reads tokens =>
      TcpServer.PlainToken(tokens[k].x, tokens[k].y, tokens[k].color))
  }

  /** Unpickling a token list: one new dictionary per token, with the same
      position and colour. */
  method Decode(plain: seq<TcpServer.PlainToken>) returns (tokens: seq<PyToken>)
    ensures Values(tokens) == plain
    ensures forall k :: 0 <= k < |tokens| ==> fresh(tokens[k])
  {
    tokens := [];
    var i := 0;
    while i < |plain|
      invariant 0 <= i <= |plain|
      invariant |tokens| == i
      invariant forall k :: 0 <= k < i ==>
                  TcpServer.PlainToken(tokens[k].x, tokens[k].y, tokens[k].color) == plain[k]
      invariant forall k :: 0 <= k < i ==> fresh(tokens[k])
    {
      var t := new PyToken(plain[i].x, plain[i].y, plain[i].color);
      tokens := tokens + [t];
      i := i + 1;
    }
  }

  /** The dice-button test: strictly inside die i's square. */
  predicate OnDie(i: int, mx: int, my: int)
  {
    && DieLeft + DieStride * i < mx < DieLeft + DieStride * i + DieSize
    && DieTop < my < DieTop + DieSize
  }

  /** The four dice squares do not overlap. */
  lemma DiceRectsDisjoint(i: int, j: int, mx: int, my: int)
    requires 0 <= i < j < 4
    ensures !(OnDie(i, mx, my) && OnDie(j, mx, my))
  {
  }

  /** The dice loop of a mouse-down: one `roll` request per die under the
      pointer; since the squares are disjoint, at most one is sent, and one
      is sent exactly when the pointer is on a die. */
  method ClickDice(mx: int, my: int) returns (sent: seq<TcpServer.Request>)
    ensures |sent| <= 1
    ensures forall m :: m in sent ==> m == TcpServer.Roll
    ensures |sent| == 1 <==> exists i :: 0 <= i < 4 && OnDie(i, mx, my)
  {
    sent := [];
    for i := 0 to 4
      invariant sent == if exists k :: 0 <= k < i && OnDie(k, mx, my) then [TcpServer.Roll] else []
    {
      if OnDie(i, mx, my) {
        forall k | 0 <= k < i
          ensures !OnDie(k, mx, my)
        {
          DiceRectsDisjoint(k, i, mx, my);
        }
        sent := sent + [TcpServer.Roll];
      }
    }
  }

  /** The client's globals. */
  class Client {
    var tokens: seq<PyToken>
    var dice: seq<Face>
    var rollHistory: seq<ScoredRoll>
    var dragging: PyToken?

    constructor ()
      ensures tokens == [] && dice == AllWhite && rollHistory == [] && dragging == null
    {
      tokens := [];
      dice := AllWhite;
      rollHistory := [];
      dragging := null;
    }

    /** recv_data's dispatch on one message: `updateTokens` replaces the
        tokens, `dice` the dice and history, `init` all three, and any other
        type nothing. */
    method Receive(msg: Incoming)
      modifies this`tokens, this`dice, this`rollHistory
      ensures msg.UpdateTokens? ==>
                tokens == msg.tokens && dice == old(dice) && rollHistory == old(rollHistory)
      ensures msg.DiceUpdate? ==>
                tokens == old(tokens) && dice == msg.dice && rollHistory == msg.history
      ensures msg.Init? ==>
                tokens == msg.tokens && dice == msg.dice && rollHistory == msg.history
      ensures msg.Unrecognised? ==>
                tokens == old(tokens) && dice == old(dice) && rollHistory == old(rollHistory)
    {
      match msg
      case UpdateTokens(ts) =>
        tokens := ts;
      case DiceUpdate(d, h) =>
        dice := d;
        rollHistory := h;
      case Init(ts, d, h) =>
        tokens := ts;
        dice := d;
        rollHistory := h;
      case Unrecognised(_) =>
    }

    /** Connecting: the server's `init` snapshot arrives and is dispatched
        like any other message, after which the client shows exactly the
        server's tokens, dice and history. */
    method Join(server: TcpServer.Server)
      modifies this`tokens, this`dice, this`rollHistory
      ensures Values(tokens) == server.tokens
      ensures dice == server.dice && rollHistory == server.rollHistory
      ensures dragging == old(dragging) && dragging !in tokens
    {
      var snapshot := server.Snapshot();
      var decoded := Decode(snapshot.tokens);
      Receive(Init(decoded, snapshot.dice, snapshot.history));
    }

    /** The grab loop of a mouse-down: the last token in the list whose
        centre is within 20 pixels is dragged; with none in range the drag
        state is left as it was. */
    method Grab(mx: int, my: int)
      modifies this`dragging
      ensures var i := TopmostHit(Centres(tokens), Point(mx, my), GrabRadius);
              dragging == if i >= 0 then tokens[i] else old(dragging)
    {
      ghost var centres := Centres(tokens);
      var i := |tokens|;
      while i > 0
        invariant 0 <= i <= |tokens|
        invariant forall k :: i <= k < |tokens| ==> !Within(centres[k], Point(mx, my), GrabRadius)
        invariant dragging == old(dragging)
      {
        i := i - 1;
        var t := tokens[i];
        if (mx - t.x) * (mx - t.x) + (my - t.y) * (my - t.y) <= GrabRadius * GrabRadius {
          assert Within(centres[i], Point(mx, my), GrabRadius);
          dragging := t;
          return;
        }
      }
    }

    /** A mouse-down: the grab, then the dice buttons. */
    method MouseDown(mx: int, my: int) returns (sent: seq<TcpServer.Request>)
      modifies this`dragging
      ensures var i := TopmostHit(Centres(tokens), Point(mx, my), GrabRadius);
              dragging == if i >= 0 then tokens[i] else old(dragging)
      ensures |sent| <= 1 && forall m :: m in sent ==> m == TcpServer.Roll
      ensures |sent| == 1 <==> exists i :: 0 <= i < 4 && OnDie(i, mx, my)
    {
      Grab(mx, my);
      sent := ClickDice(mx, my);
    }

    /** A mouse-up while dragging ends the drag and sends the whole current
        token list as one `move` request; otherwise nothing happens. */
    method MouseUp() returns (sent: Option<TcpServer.Request>)
      modifies this`dragging
      ensures dragging == null
      ensures old(dragging) == null ==> sent == None
      ensures old(dragging) != null ==> sent == Some(TcpServer.Move(Values(tokens)))
    {
      sent := None;
      if dragging != null {
        dragging := null;
        sent := Some(TcpServer.Move(Values(tokens)));
      }
    }

    /** Mouse motion while dragging puts the dragged token at the cursor. */
    method Motion(mx: int, my: int)
      modifies dragging
      ensures dragging == old(dragging)
      ensures dragging != null ==> dragging.x == mx && dragging.y == my
    {
      if dragging != null {
        dragging.x, dragging.y := mx, my;
      }
    }
  }
}
