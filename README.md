# Amdavad board game: state logic in Dafny

Amdavad is a small multiplayer board game. Players drag coloured tokens on a
shared board and roll four two-faced dice (white or black). The repository
holds five separate versions of the game's state logic. This project models
each one as written, without merging them, because they differ:

- **app.py** (Flask-SocketIO server, module `FlaskServer`) owns one shared
  record: tokens, dice, roll history, white count and move count.
  - A roll sets four dice. The score is the number of white faces, or 8 when
    there are none.
  - The new roll goes at the *front* of the history, which is cut to five
    entries.
  - A move overwrites the position of the first token with the given id and
    bumps the move counter, even when no token matched.
  - A reset rebuilds the default record: 16 tokens, four white dice, empty
    history and zero counters.
- **server.py** (raw-TCP server, module `TcpServer`) uses the same scoring
  rule.
  - The roll is *appended* to the history and only the last five are kept.
  - A move replaces the whole token list with the list the client sends.
  - A disconnect removes the connection from the client list if it is there.
  - Its initial token comprehension runs `i` over `range(4)` only, so
    `i // 4` is always 0. Token *i* of every colour therefore starts at the
    same point (650 + 25*i, 300). The model keeps this, and the lemma
    `InitialTokensStacked` proves it.
- **src/App.jsx** (standalone React game, module `ReactGame`) keeps all rules
  in the browser, as functions from one state to the next.
  - A roll counts whites with no special case and increments the move
    counter.
  - A roll appends `{rollNumber, count}` and drops the first entry once there
    are more than five.
  - A drop either takes a token from a colour's supply pool or moves an
    existing token, which gets a fresh id.
- **static/js/game.js** (browser client of app.py, module `BrowserClient`)
  holds a copy of the server record.
  - The socket handlers merge partial updates into it field by field.
  - It hit-tests the topmost token under the pointer and clamps a dragged
    token inside the canvas.
  - When the drag ends it sends one `move_token`.
- **client.py** (pygame client of server.py, module `PygameClient`):
  - dispatches incoming messages on their `type`;
  - grabs the last token within 20 pixels of the mouse;
  - tests the four dice buttons;
  - sends the whole token list when a drag ends.

`Common` holds what the versions share:
- dice faces and colours;
- the white count, with a second, multiset-based definition proved equal;
- the 0-whites-score-8 rule;
- the `W`/`B` dice string, with an inverse and a round-trip proof;
- the squared-distance hit test;
- the clamp.

Randomness and fresh ids are parameters. The four random faces are passed
to each roll. `Date.now()` is passed to a drop as `freshId`. Pointer
positions are also inputs.

Some behaviour of the code that is easy to miss:
- Only game.js clamps positions, in the browser, before it sends them
  (static/js/game.js:245-248). app.py stores whatever position it receives
  (app.py:110-114). App.jsx places a dropped token at pointer minus grab
  offset with no clamp at all (src/App.jsx:100-105).
- app.py counts moves, not rolls, in `move_count`; App.jsx counts rolls.
- app.py resets `white_count` to 0 while showing four white dice. The
  invariant `FlaskServer.Game.Valid` allows a count of 0 only while the
  history is empty.
- App.jsx has no pool-exhausted check: a drop from a pool at 0 takes it to
  -1 (see `ReactGame.Drop`).
- An unknown id in app.py's move is a silent no-op apart from the counter.

## Model

| member | source | states |
|---|---|---|
| `Common.CountWhite` | app.py:93 | the number of white faces never exceeds the number of dice |
| `Common.CountWhiteIsMultiplicity` | src/App.jsx:22-24 | the white count (the filtered list's length) equals the multiplicity of White among the faces |
| `Common.CountWhiteZero` | app.py:93-94 | the count is 0 exactly when every face is black |
| `Common.CountWhiteFull` | src/App.jsx:5-13 | the count equals the number of dice exactly when every face is white, so four white dice give the initial count 4 |
| `Common.Score` | server.py:45-48 | the 0-whites-score-8 rule shared by both Python servers; its range and meaning are proved by `Common.ScoreRange` |
| `Common.ScoreRange` | app.py:92-96 | for four dice the score is in {1,2,3,4,8}: it is 8 iff all faces are black, and otherwise it is the white multiplicity |
| `Common.DiceString` | static/js/game.js:114 | one letter per die, `W` exactly for a white face and `B` otherwise, and no other letters |
| `Common.DiceStringRoundTrip` | client.py:98 | the dice string loses nothing: reading it back yields the faces |
| `Common.TopmostHit` | static/js/game.js:189-201 | the result is -1 or a hit index, and no token after it is within the radius, so it is the topmost hit |
| `Common.Clamp` | static/js/game.js:245-248 | with room for the token, the result lies in [r, extent-r]; an in-range value is unchanged; a value below or above goes to the nearer bound |
| `Common.ClampIdempotent` | static/js/game.js:245-248 | clamping twice equals clamping once, for any extent |
| `FlaskServer.TokenIdsDistinct` | app.py:43 | ids `<color>-<j>` of different (colour, j) pairs differ |
| `FlaskServer.DefaultLayoutShape` | app.py:29-44 | the default list has 16 distinct ids, four tokens per colour, in the order red, blue, green, yellow |
| `FlaskServer.DefaultLayoutUnique` | app.py:119-121 | the layout determines the list, so every reset yields the same tokens |
| `FlaskServer.DefaultTokens` | app.py:29-44 | the nested loops build 16 tokens. Token k has colour k/4 and id `<color>-<k%4>`. It sits at x = X_POSITIONS[i][0]*120+60+20j, y = X_POSITIONS[i][1]*120+60. All ids differ |
| `FlaskServer.ResetGameState` | app.py:28-52 | the default record: default tokens, four white dice, empty history, white count 0 and move count 0 |
| `FlaskServer.FirstMatch` | app.py:110-114 | the index of the first token with the id, or the list length when no token has it |
| `FlaskServer.Game.constructor` | app.py:55 | the global state starts as the default record and satisfies the invariant |
| `FlaskServer.Game.RollDice` | app.py:90-98 | four new dice; white count = score; new entry {dice, score} at index 0; earlier entries shifted by one; length min(old+1, 5); tokens and move count unchanged; invariant kept |
| `FlaskServer.Game.MoveToken` | app.py:105-115 | only the first token with the id gets the new x and y. Length, ids, colours and other tokens are unchanged. An unknown id leaves the tokens identical. The move count rises by exactly 1 |
| `FlaskServer.Game.ResetGame` | app.py:118-121 | the whole record becomes the default record again |
| `FlaskServer.ValidWhiteCount` | app.py:92-96 | in every valid state the white count is 0 (no roll since reset) or one of 1, 2, 3, 4, 8 |
| `TcpServer.InitialTokens` | server.py:11-12 | the initial comprehension as written, row term `i // 4` included; its layout is proved by `TcpServer.InitialTokensStacked` |
| `TcpServer.InitialTokensStacked` | server.py:11-12 | four tokens per colour in colour order, all at y = 300 and x = 650+25(k%4), so token i of every colour shares one point |
| `TcpServer.IndexOf` | server.py:62-63 | the first position of a connection, below the length exactly when it is present |
| `TcpServer.RemoveFirstOccurrence` | server.py:61-63 | removing the first occurrence takes exactly one copy out of the client multiset |
| `TcpServer.Server.constructor` | server.py:11-14 | initial tokens as written, four black dice, empty history, no clients |
| `TcpServer.Server.Accept` | server.py:76-77 | a new connection is appended to the client list |
| `TcpServer.Server.RollDice` | server.py:43-51 | four new dice; new entry {dice, score} appended last; length min(old+1, 5); older entries are a suffix of the old history; tokens unchanged; broadcast carries dice and history |
| `TcpServer.Server.MoveTokens` | server.py:53-55 | tokens become the supplied list verbatim; dice and history unchanged; the broadcast carries the list |
| `TcpServer.Server.Handle` | server.py:41-55 | `roll`: new dice, the new {dice, score} entry last, length min(old+1, 5), older entries a suffix of the old history, tokens unchanged, the dice broadcast; `move`: tokens replaced verbatim, dice and history unchanged, the token broadcast; any other type changes no state and broadcasts nothing |
| `TcpServer.Server.Disconnect` | server.py:61-63 | a present connection's first occurrence is removed and the others keep their order; an absent one leaves the list unchanged |
| `ReactGame.InitialState` | src/App.jsx:5-15 | four white dice with count 4, every pool 4, no tokens, empty history and move count 0, all consistent |
| `ReactGame.DiceClick` | src/App.jsx:17-39 | dice are the new faces; the white count is the White multiplicity (no 0-to-8 rule); move count +1; tokens and pools unchanged |
| `ReactGame.DiceClickConsistent` | src/App.jsx:18-26 | a roll keeps the count equal to the dice's white count and the history within five |
| `ReactGame.DiceClickHistory` | src/App.jsx:30-38 | the new entry {moveCount+1, count} is appended last; the first entry is dropped only when five were shown; a history of at most five stays at min(old+1, 5) |
| `ReactGame.WindowStep` | src/App.jsx:30-38 | the window of the last five rolls moves by one entry per roll |
| `ReactGame.RollsHistory` | src/App.jsx:27-38 | after n rolls from the start, the move count is n and the history is exactly the last min(n,5) rolls, numbered by their 1-based order |
| `ReactGame.CountId` | src/App.jsx:109 | the number of tokens with an id is at most the length, and 0 exactly when none has it |
| `ReactGame.RemoveId` | src/App.jsx:109 | the filter keeps exactly the tokens without the id, and its length drops by their count |
| `ReactGame.RemoveIdAppend` | src/App.jsx:109 | the filter preserves order: filtering a concatenation is the concatenation of the filtered parts |
| `ReactGame.RemoveIdSingle` | src/App.jsx:109 | one token is kept exactly when its id differs; with `RemoveIdAppend` this fixes the result, order and copies included, for every list |
| `ReactGame.Drop` | src/App.jsx:90-114 | an unparsable payload changes nothing. A new drop lowers only its colour's pool, by 1, and appends one token. A move removes every token with the id and appends one; the pools are unchanged, and a unique id keeps the count. The new token sits at pointer minus offset |
| `BrowserClient.Board.constructor` | static/js/game.js:9-34 | the initial `gameState` and drag globals |
| `BrowserClient.Board.OnGameState` | static/js/game.js:72-77 | the whole record is replaced; the drag state is untouched |
| `BrowserClient.Board.OnDiceRolled` | static/js/game.js:79-85 | only dice, white count and history change |
| `BrowserClient.Board.OnTokensUpdated` | static/js/game.js:87-92 | only tokens and move count change |
| `BrowserClient.Board.ConstrainToken` | static/js/game.js:245-248 | the token's x and y are clamped, and lie a radius inside the canvas when it is at least two radii wide and high |
| `BrowserClient.Board.StartDragging` | static/js/game.js:189-201 | drags the topmost token within radius 15, with offset = pointer minus centre; with no hit, drag state and offsets are unchanged |
| `BrowserClient.Board.MouseMove` | static/js/game.js:208-216 | while dragging, the token moves to the clamped pointer-minus-offset and is then inside the canvas |
| `BrowserClient.Board.SendTokenMove` | static/js/game.js:250-258 | no drag sends nothing; otherwise one `move_token` with the token's id, x and y; the drag is cleared |
| `BrowserClient.Board.MouseLeave` | static/js/game.js:219 | the drag is cleared |
| `PygameClient.OnDie` | client.py:130-132 | the open 60-pixel square of die i, left edge 150+70i, top edge 100 above the window bottom; its squares are proved disjoint by `PygameClient.DiceRectsDisjoint` and used by `PygameClient.ClickDice` |
| `PygameClient.Decode` | client.py:37 | unpickling a token list yields one fresh token object per entry with the same position and colour, so the values read back equal the list sent |
| `PygameClient.DiceRectsDisjoint` | client.py:130-133 | no point lies on two dice buttons |
| `PygameClient.ClickDice` | client.py:129-133 | at most one `roll` is sent, and one is sent exactly when the mouse is on a die |
| `PygameClient.Client.constructor` | client.py:26-28 | no tokens, four white dice, empty history, no drag |
| `PygameClient.Client.Receive` | client.py:37-46 | `updateTokens` replaces only tokens; `dice` replaces dice and history; `init` replaces all three; other types change nothing |
| `PygameClient.Client.Join` | server.py:32-34 | after the server's `init` snapshot is decoded and received, the client's token values, dice and history equal the server's; the token objects are new, so a dragged token held from before is no longer in the list |
| `PygameClient.Client.Grab` | client.py:124-128 | drags the last token within 20 pixels (squared distance at most 400); with none, `dragging` is unchanged |
| `PygameClient.Client.MouseDown` | client.py:122-133 | the grab, then at most one `roll` request |
| `PygameClient.Client.MouseUp` | client.py:135-138 | while dragging, clears the drag and sends one `move` with the whole current token list; otherwise sends nothing |
| `PygameClient.Client.Motion` | client.py:140-141 | while dragging, the dragged token moves to the cursor |

## Left out

- Transport is not modelled. This covers Socket.IO emits and listeners, raw
  TCP `recv`/`sendall`, pickling (except the client rebuilding its token
  objects, `PygameClient.Decode`), JSON parsing and connection setup. Handlers
  take decoded, well-typed messages.
- A malformed message (a missing key raising `KeyError`, bad pickle data)
  ends the connection in server.py and the receive thread in client.py. The
  model does not include these paths.
- app.py's `data.get` on a `move_token` payload may return None for a missing
  field. The model assumes the fields game.js always sends.
- Concurrency is not modelled: the threads, the `lock` in server.py and the
  receive thread in client.py. Each handler is one atomic step.
- Dead-client pruning in `broadcast` (server.py:16-26) is left out. It
  depends on socket send failures.
- Authentication (app.py:77-84, static/js/game.js:40-63) is left out. It is a
  string comparison against an environment secret, plus UI toggling.
- Rendering is left out:
  - game.js: `drawBoard`, `updateUI` DOM writes, `updateConnectionStatus`;
  - client.py: the pygame `draw_*` functions and the main loop;
  - App.jsx: JSX markup, `renderBoard`, `renderTokens`.
  Only the dice string of the history display is modelled.
- game.js's touch handlers (static/js/game.js:221-243) repeat the mouse
  handlers. The same methods model them.
- The dice click handler (static/js/game.js:264-268) only emits
  `roll_dice`, so it is left out.
- The App.jsx `onDragStart` handlers (src/App.jsx:71-83, 137-147) only build
  the drag payload, so they are left out. `DragData` carries its fields. The
  existing-token payload has no `isNew` field, so it reads as `isNew` false.
- Pixel coordinates are integers. The sources only use `+`, `-`, `min`,
  `max`, comparisons and squares on them. Fractional browser coordinates are
  not modelled.
- A die face is `White` or `Black`. So game.js's "any value other than white
  gives `B`" has no third case to cover.
- Random draws and `Date.now()` are parameters. Their distributions are not
  modelled.
- server/server.js and client/src/App.jsx are not part of this model. Their
  only logic replaces one shared message object wholesale.
