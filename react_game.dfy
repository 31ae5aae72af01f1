/** The standalone React game (src/App.jsx): every rule runs in the browser
    and every update builds a new state from the previous one. A roll counts
    white faces with no special case, bumps the move counter and appends a
    numbered entry to a history of at most five; a drop either places a new
    token from a colour's supply pool or moves an existing token. */
module ReactGame {
  import opened Common

  const PoolSize: int := 4

  /** One line of the "Last 5 Rolls" list. */
  datatype Entry = Entry(rollNumber: int, count: int)

  /** The component's six pieces of state. */
  datatype State = State(
    dice: seq<Face>,
    tokens: seq<Token>,
    pools: map<Color, int>,
    whiteCount: int,
    history: seq<Entry>,
    moveCount: int)

  /** The parsed drag payload: the dragged token's id and colour, where
      inside the token it was grabbed, and whether it comes from a pool. */
  datatype DragData = DragData(id: string, color: Color, offsetX: int, offsetY: int, isNew: bool)

  ghost predicate PoolsComplete(pools: map<Color, int>)
  {
    forall c: Color :: c in pools
  }

  lemma ColorsListed()
    ensures forall c: Color :: c in Colors
  {
    forall c: Color
      ensures c in Colors
    {
      match c
      case Red => assert Colors[0] == c;
      case Blue => assert Colors[1] == c;
      case Green => assert Colors[2] == c;
      case Yellow => assert Colors[3] == c;
    }
  }

  /** Four dice whose white count is the displayed count, a history of at
      most five entries, and a pool entry for every colour. */
  ghost predicate Consistent(s: State)
  {
    && |s.dice| == 4
    && s.whiteCount == CountWhite(s.dice)
    && |s.history| <= HistoryLimit
    && PoolsComplete(s.pools)
  }

  /** The useState initialisers. */
  function InitialState(): (s: State)
    ensures Consistent(s)
    ensures s.whiteCount == 4
    ensures forall c: Color :: s.pools[c] == PoolSize
    ensures s.tokens == [] && s.history == [] && s.moveCount == 0
  {
    ColorsListed();
    State(AllWhite, [], map c: Color | c in Colors :: PoolSize, 4, [], 0)
  }

  /** handleDiceClick, with the four random faces as a parameter. */
  function DiceClick(s: State, faces: seq<Face>): (r: State)
    requires |faces| == 4
    ensures r.dice == faces
    ensures r.whiteCount == CountWhite(faces) == multiset(faces)[White]
    ensures r.moveCount == s.moveCount + 1
    ensures r.tokens == s.tokens && r.pools == s.pools
  {
    CountWhiteIsMultiplicity(faces);
    var count := CountWhite(faces);
    var updated := s.history + [Entry(s.moveCount + 1, count)];
    s.(dice := faces, whiteCount := count, moveCount := s.moveCount + 1,
       history := if |updated| > HistoryLimit then updated[1..] else updated)
  }

  /** A roll keeps the state consistent: the shown count matches the new
      dice and the history stays within five entries. */
  lemma DiceClickConsistent(s: State, faces: seq<Face>)
    requires Consistent(s) && |faces| == 4
    ensures Consistent(DiceClick(s, faces))
  {
  }

  predicate AllFourDice(rolls: seq<seq<Face>>)
  {
    forall i :: 0 <= i < |rolls| ==> |rolls[i]| == 4
  }

  /** The state after clicking the dice once per element of rolls. */
  function Rolls(s: State, rolls: seq<seq<Face>>): State
    requires AllFourDice(rolls)
  {
    if rolls == [] then s
    else DiceClick(Rolls(s, rolls[..|rolls| - 1]), rolls[|rolls| - 1])
  }

  /** The history that n rolls should leave: the last min(n, 5) rolls, oldest
      first, each numbered by its 1-based position among all the rolls and
      carrying its white count. */
  function Window(rolls: seq<seq<Face>>): seq<Entry>
  {
    var m := Min(|rolls|, HistoryLimit);
    seq(m, j requires 0 <= j < m => Entry(|rolls| - m + j + 1, CountWhite(rolls[|rolls| - m + j])))
  }

  /** One more roll moves the window by one: its entry is appended, and the
      oldest one is dropped once five are shown. */
  lemma WindowStep(prefix: seq<seq<Face>>, faces: seq<Face>)
    ensures var w := Window(prefix);
            Window(prefix + [faces])
            == (if |w| < HistoryLimit then w else w[1..]) + [Entry(|prefix| + 1, CountWhite(faces))]
  {
    var rolls := prefix + [faces];
    var w, w' := Window(prefix), Window(rolls);
    var expected := (if |w| < HistoryLimit then w else w[1..]) + [Entry(|prefix| + 1, CountWhite(faces))];
    assert |w'| == |expected|;
    forall j | 0 <= j < |w'|
      ensures w'[j] == expected[j]
    {
      if j < |w'| - 1 {
        assert rolls[|rolls| - |w'| + j] == prefix[|rolls| - |w'| + j];
      }
    }
  }

  /** A roll appends its entry, numbered one past the previous move count,
      as the newest (last) entry, and drops the oldest only when five were
      already shown; so a history of at most five stays at most five. */
  lemma DiceClickHistory(s: State, faces: seq<Face>)
    requires |faces| == 4
    ensures DiceClick(s, faces).history
            == (if |s.history| < HistoryLimit then s.history else s.history[1..])
               + [Entry(s.moveCount + 1, CountWhite(faces))]
    ensures |s.history| <= HistoryLimit ==> |DiceClick(s, faces).history| == Min(|s.history| + 1, HistoryLimit)
  {
  }

  /** After n rolls from a state with no history and no moves (the initial
      state is one) the move counter is n and the history is exactly the
      window of the last min(n, 5) rolls. */
  lemma {:induction false} RollsHistory(start: State, rolls: seq<seq<Face>>)
    requires start.history == [] && start.moveCount == 0
    requires AllFourDice(rolls)
    ensures Rolls(start, rolls).moveCount == |rolls|
    ensures Rolls(start, rolls).history == Window(rolls)
  {
    if rolls == [] {
      assert Window(rolls) == [];
    } else {
      var prefix, faces := rolls[..|rolls| - 1], rolls[|rolls| - 1];
      assert AllFourDice(prefix);
      RollsHistory(start, prefix);
      DiceClickHistory(Rolls(start, prefix), faces);
      WindowStep(prefix, faces);
      assert prefix + [faces] == rolls;
    }
  }

  /** How many tokens carry the id. */
  function CountId(tokens: seq<Token>, id: string): (n: nat)
    ensures n <= |tokens|
    ensures n == 0 <==> forall k :: 0 <= k < |tokens| ==> tokens[k].id != id
  {
    if tokens == [] then 0
    else (if tokens[0].id == id then 1 else 0) + CountId(tokens[1..], id)
  }

  /** prev.filter(t => t.id !== id) */
  function RemoveId(tokens: seq<Token>, id: string): (r: seq<Token>)
    ensures |r| == |tokens| - CountId(tokens, id)
    ensures forall t :: t in r <==> t in tokens && t.id != id
  {
    if tokens == [] then []
    else if tokens[0].id == id then RemoveId(tokens[1..], id)
    else [tokens[0]] + RemoveId(tokens[1..], id)
  }

  /** The filter keeps the surviving tokens in their order: filtering a
      concatenation filters each part. With RemoveIdSingle this determines
      the result, order and copies included, for every list. */
  lemma {:induction false} RemoveIdAppend(a: seq<Token>, b: seq<Token>, id: string)
    ensures RemoveId(a + b, id) == RemoveId(a, id) + RemoveId(b, id)
  {
    if a == [] {
      assert a + b == b;
    } else {
      RemoveIdAppend(a[1..], b, id);
      RemoveIdAppendStep(a[0], a[1..], b, id);
      assert [a[0]] + a[1..] == a;
    }
  }

  /** The inductive step of RemoveIdAppend: putting one token in front of
      both sides keeps the equation. */
  lemma RemoveIdAppendStep(t: Token, rest: seq<Token>, b: seq<Token>, id: string)
    requires RemoveId(rest + b, id) == RemoveId(rest, id) + RemoveId(b, id)
    ensures RemoveId([t] + rest + b, id) == RemoveId([t] + rest, id) + RemoveId(b, id)
  {
    ConcatAssoc([t], rest, b);
    RemoveIdCons(t, rest + b, id);
    RemoveIdCons(t, rest, id);
    ConcatAssoc(if t.id == id then [] else [t], RemoveId(rest, id), RemoveId(b, id));
  }

  /** Concatenation is associative. */
  lemma ConcatAssoc<T>(x: seq<T>, y: seq<T>, z: seq<T>)
    ensures x + (y + z) == x + y + z
  {
  }

  /** One step of the filter: the head token, if kept, followed by the
      filtered rest. */
  lemma RemoveIdCons(t: Token, rest: seq<Token>, id: string)
    ensures RemoveId([t] + rest, id) == (if t.id == id then [] else [t]) + RemoveId(rest, id)
  {
    assert ([t] + rest)[1..] == rest;
  }

  /** A single token survives the filter exactly when its id differs. */
  lemma RemoveIdSingle(t: Token, id: string)
    ensures RemoveId([t], id) == if t.id == id then [] else [t]
  {
    assert [t][1..] == [];
  }

  /** handleDrop. The payload is None when it does not parse; freshId stands
      for Date.now().toString() and (clientX, clientY) for the pointer. */
  function Drop(s: State, payload: Option<DragData>, freshId: string, clientX: int, clientY: int): (r: State)
    requires PoolsComplete(s.pools)
    ensures Consistent(s) ==> Consistent(r)
    ensures payload.None? ==> r == s
    ensures payload.Some? ==>
              && r.dice == s.dice && r.whiteCount == s.whiteCount
              && r.history == s.history && r.moveCount == s.moveCount
              && |r.tokens| > 0
              && r.tokens[|r.tokens| - 1]
                 == Token(freshId, payload.value.color,
                          clientX - payload.value.offsetX, clientY - payload.value.offsetY)
    ensures payload.Some? && payload.value.isNew ==>
              && PoolsComplete(r.pools)
              && (forall c: Color :: r.pools[c] == if c == payload.value.color then s.pools[c] - 1 else s.pools[c])
              && r.tokens[..|r.tokens| - 1] == s.tokens
    ensures payload.Some? && !payload.value.isNew ==>
              && r.pools == s.pools
              && r.tokens[..|r.tokens| - 1] == RemoveId(s.tokens, payload.value.id)
              && (CountId(s.tokens, payload.value.id) == 1 ==> |r.tokens| == |s.tokens|)
  {
    match payload
    case None => s
    case Some(d) =>
      var pools := if d.isNew then s.pools[d.color := s.pools[d.color] - 1] else s.pools;
      var newToken := Token(freshId, d.color, clientX - d.offsetX, clientY - d.offsetY);
      var tokens := if d.isNew then s.tokens + [newToken] else RemoveId(s.tokens, d.id) + [newToken];
      s.(pools := pools, tokens := tokens)
  }
}
