/** The raw-TCP server (server.py): module-level token list, dice, roll
    history and connected clients, changed one message at a time. The newest
    roll is APPENDED and only the last five are kept; a move replaces the
    whole token list with the one the client sends. */
module TcpServer {
  import opened Common

  /** A token as server.py lays it out: no id, just a position and a colour. */
  datatype PlainToken = PlainToken(x: int, y: int, color: Color)

  /** A connected socket, identified by an opaque number. */
  type Conn = nat

  /** What a client may send: a roll, a move with its whole token list, or a
      message of any other type. */
  datatype Request = Roll | Move(tokens: seq<PlainToken>) | Unrecognised(kind: string)

  /** What the server sends: the snapshot on connect, and the broadcasts. */
  datatype Outgoing =
    | InitMsg(tokens: seq<PlainToken>, dice: seq<Face>, history: seq<ScoredRoll>)
    | DiceMsg(dice: seq<Face>, history: seq<ScoredRoll>)
    | UpdateTokensMsg(tokens: seq<PlainToken>)

  /** The initial token comprehension exactly as written: the inner index i
      only runs over 0..3, so the row term i // 4 is always 0. */
  function InitialTokens(): seq<PlainToken>
  {
    seq(16, k requires 0 <= k < 16 =>
      var i := k % 4;
      PlainToken(650 + (i % 4) * 25, 300 + (i / 4) * 25, Colors[k / 4]))
  }

  /** The initial list holds four tokens per colour, in colour order, all on
      the row y = 300 at x = 650, 675, 700, 725; so token i of every colour
      lies on the same point as token i of every other colour. */
  lemma InitialTokensStacked()
    ensures |InitialTokens()| == 16
    ensures forall k :: 0 <= k < 16 ==>
              && InitialTokens()[k].color == Colors[k / 4]
              && InitialTokens()[k].x == 650 + 25 * (k % 4)
              && InitialTokens()[k].y == 300
    ensures forall k, l :: 0 <= k < 16 && 0 <= l < 16 && k % 4 == l % 4 ==>
              InitialTokens()[k].x == InitialTokens()[l].x &&
              InitialTokens()[k].y == InitialTokens()[l].y
  {
  }

  /** Index of the first occurrence of c in s, or |s| when it does not occur. */
  function IndexOf(s: seq<Conn>, c: Conn): (i: nat)
    ensures i <= |s|
    ensures i < |s| <==> c in s
    ensures forall k :: 0 <= k < i ==> s[k] != c
    ensures i < |s| ==> s[i] == c
  {
    if s == [] then 0
    else if s[0] == c then 0
    else 1 + IndexOf(s[1..], c)
  }

  /** Removing the first occurrence of c takes exactly one c out of the
      multiset of clients and keeps everything before it in place. */
  lemma RemoveFirstOccurrence(s: seq<Conn>, c: Conn)
    requires c in s
    ensures var i := IndexOf(s, c);
            && multiset(s[..i] + s[i + 1..]) == multiset(s) - multiset{c}
            && c !in s[..i]
  {
    var i := IndexOf(s, c);
    var before, after := s[..i], s[i + 1..];
    assert s == before + [c] + after;
    calc {
      multiset(s);
      multiset(before + [c]) + multiset(after);
      multiset(before) + multiset{c} + multiset(after);
      multiset(before + after) + multiset{c};
    }
  }

  /** The module globals `tokens`, `dice`, `roll_history` and `clients`. */
  class Server {
    var tokens: seq<PlainToken>
    var dice: seq<Face>
    var rollHistory: seq<ScoredRoll>
    var clients: seq<Conn>

    /** Four dice, and at most five history entries, each scored by the rule. */
    ghost predicate Valid()
      reads this
    {
      && |dice| == 4
      && |rollHistory| <= HistoryLimit
      && forall k :: 0 <= k < |rollHistory| ==> WellScored(rollHistory[k])
    }

    /** The initial globals. */
    constructor ()
      ensures Valid()
      ensures tokens == InitialTokens()
      ensures dice == [Black, Black, Black, Black]
      ensures rollHistory == [] && clients == []
    {
      tokens := InitialTokens();
      dice := [Black, Black, Black, Black];
      rollHistory := [];
      clients := [];
    }

    /** The `init` snapshot sent to a newly connected client. */
    function Snapshot(): Outgoing
      reads this
    {
      InitMsg(tokens, dice, rollHistory)
    }

    /** The accept loop registers a new connection at the end of `clients`. */
    method Accept(c: Conn)
      modifies this
      ensures clients == old(clients) + [c]
      ensures tokens == old(tokens) && dice == old(dice) && rollHistory == old(rollHistory)
    {
      clients := clients + [c];
    }

    /** The `roll` branch, with the four random faces as a parameter: set the
        dice, append {dice, score} and keep the last five entries. */
    method RollDice(faces: seq<Face>) returns (out: Outgoing)
      requires Valid() && |faces| == 4
      modifies this
      ensures Valid()
      ensures dice == faces
      ensures |rollHistory| == Min(|old(rollHistory)| + 1, HistoryLimit)
      ensures rollHistory[|rollHistory| - 1] == ScoredRoll(faces, Score(faces))
      ensures rollHistory[..|rollHistory| - 1]
              == old(rollHistory)[|old(rollHistory)| - (|rollHistory| - 1)..]
      ensures tokens == old(tokens) && clients == old(clients)
      ensures out == DiceMsg(dice, rollHistory)
    {
      dice := faces;
      var score := CountWhite(dice);
      if score == 0 {
        score := 8;
      }
      rollHistory := rollHistory + [ScoredRoll(dice, score)];
      if |rollHistory| > HistoryLimit {
        rollHistory := rollHistory[|rollHistory| - HistoryLimit..];
      }
      out := DiceMsg(dice, rollHistory);
    }

    /** The `move` branch: the client's token list replaces the server's. */
    method MoveTokens(newTokens: seq<PlainToken>) returns (out: Outgoing)
      requires Valid()
      modifies this
      ensures Valid()
      ensures tokens == newTokens
      ensures dice == old(dice) && rollHistory == old(rollHistory) && clients == old(clients)
      ensures out == UpdateTokensMsg(newTokens)
    {
      tokens := newTokens;
      out := UpdateTokensMsg(tokens);
    }

    /** One pass of handle_client's receive loop on a decoded message; a
        message of any other type changes nothing and broadcasts nothing. */
    method Handle(req: Request, faces: seq<Face>) returns (out: Option<Outgoing>)
      requires Valid() && |faces| == 4
      modifies this
      ensures Valid()
      ensures clients == old(clients)
      ensures req.Roll? ==>
                && dice == faces && tokens == old(tokens)
                && |rollHistory| == Min(|old(rollHistory)| + 1, HistoryLimit)
                && rollHistory[|rollHistory| - 1] == ScoredRoll(faces, Score(faces))
                && rollHistory[..|rollHistory| - 1]
                   == old(rollHistory)[|old(rollHistory)| - (|rollHistory| - 1)..]
                && out == Some(DiceMsg(dice, rollHistory))
      ensures req.Move? ==> tokens == req.tokens && dice == old(dice) && rollHistory == old(rollHistory)
                            && out == Some(UpdateTokensMsg(req.tokens))
      ensures req.Unrecognised? ==> tokens == old(tokens) && dice == old(dice)
                                    && rollHistory == old(rollHistory) && out == None
    {
      match req
      case Roll =>
        var m := RollDice(faces);
        out := Some(m);
      case Move(ts) =>
        var m := MoveTokens(ts);
        out := Some(m);
      case Unrecognised(_) =>
        out := None;
    }

    /** After the receive loop ends: remove the connection if it is present. */
    method Disconnect(c: Conn)
      modifies this
      ensures c !in old(clients) ==> clients == old(clients)
      ensures c in old(clients) ==>
                var i := IndexOf(old(clients), c);
                clients == old(clients)[..i] + old(clients)[i + 1..]
      ensures c in old(clients) ==> multiset(clients) == multiset(old(clients)) - multiset{c}
      ensures tokens == old(tokens) && dice == old(dice) && rollHistory == old(rollHistory)
    {
      if c in clients {
        var i := IndexOf(clients, c);
        RemoveFirstOccurrence(clients, c);
        clients := clients[..i] + clients[i + 1..];
      }
    }
  }
}
