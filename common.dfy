/** Values shared by every variant of the Amdavad board game: dice faces,
    token colours, the white-face count and its scoring rule, the history
    dice string, and the circular hit test and clamp used on the canvas. */
module Common {

  datatype Option<T> = None | Some(value: T)

  /** A die shows one of two faces. */
  datatype Face = White | Black

  datatype Color = Red | Blue | Green | Yellow

  /** The colour order every variant uses for its token layout and pools. */
  const Colors: seq<Color> := [Red, Blue, Green, Yellow]

  const AllWhite: seq<Face> := [White, White, White, White]

  function ColorName(c: Color): string
  {
    match c
    case Red => "red"
    case Blue => "blue"
    case Green => "green"
    case Yellow => "yellow"
  }

  /** A token record as the Flask server and the React game keep it. */
  datatype Token = Token(id: string, color: Color, x: int, y: int)

  /** One roll-history entry: a copy of the four faces and the score they gave. */
  datatype ScoredRoll = ScoredRoll(dice: seq<Face>, score: int)

  datatype Point = Point(x: int, y: int)

  function Min(a: int, b: int): int { if a <= b then a else b }

  function Max(a: int, b: int): int { if a >= b then a else b }

  // ---------------------------------------------------------------------
  // Counting white faces
  // ---------------------------------------------------------------------

  /** The number of white faces, i.e. the length of the white-filtered dice. */
  function CountWhite(faces: seq<Face>): (n: nat)
    ensures n <= |faces|
  {
    if faces == [] then 0
    else (if faces[0] == White then 1 else 0) + CountWhite(faces[1..])
  }

  /** Reference definition: the count is the multiplicity of White. */
  lemma {:induction false} CountWhiteIsMultiplicity(faces: seq<Face>)
    ensures CountWhite(faces) == multiset(faces)[White]
  {
    if faces != [] {
      CountWhiteIsMultiplicity(faces[1..]);
      assert faces == [faces[0]] + faces[1..];
      assert multiset(faces) == multiset{faces[0]} + multiset(faces[1..]);
    }
  }

  /** No white face is counted exactly when every face is black. */
  lemma {:induction false} CountWhiteZero(faces: seq<Face>)
    ensures CountWhite(faces) == 0 <==> forall i :: 0 <= i < |faces| ==> faces[i] == Black
  {
    if faces != [] {
      CountWhiteZero(faces[1..]);
      assert forall i :: 1 <= i < |faces| ==> faces[i] == faces[1..][i - 1];
    }
  }

  /** Every face is counted exactly when every face is white. */
  lemma {:induction false} CountWhiteFull(faces: seq<Face>)
    ensures CountWhite(faces) == |faces| <==> forall i :: 0 <= i < |faces| ==> faces[i] == White
  {
    if faces != [] {
      CountWhiteFull(faces[1..]);
      assert forall i :: 1 <= i < |faces| ==> faces[i] == faces[1..][i - 1];
    }
  }

  /** The Python servers' score: the white count, except that four blacks score 8. */
  function Score(faces: seq<Face>): int
  {
    var n := CountWhite(faces);
    if n == 0 then 8 else n
  }

  /** For four dice the score is one of 1, 2, 3, 4 or 8; it is 8 exactly when
      no face is white, and otherwise it is the number of white faces. */
  lemma ScoreRange(faces: seq<Face>)
    requires |faces| == 4
    ensures Score(faces) in {1, 2, 3, 4, 8}
    ensures Score(faces) == 8 <==> forall i :: 0 <= i < 4 ==> faces[i] == Black
    ensures Score(faces) != 8 ==> Score(faces) == multiset(faces)[White]
  {
    CountWhiteZero(faces);
    CountWhiteIsMultiplicity(faces);
  }

  /** Every version keeps at most five rolls in its history. */
  const HistoryLimit: int := 5

  /** A history entry of the Python servers: four dice and their score. */
  ghost predicate WellScored(e: ScoredRoll)
  {
    |e.dice| == 4 && e.score == Score(e.dice)
  }

  // ---------------------------------------------------------------------
  // The history dice string
  // ---------------------------------------------------------------------

  function FaceLetter(f: Face): char
  {
    if f == White then 'W' else 'B'
  }

  /** One letter per die: 'W' for a white face, 'B' for any other. */
  function DiceString(dice: seq<Face>): (s: string)
    ensures |s| == |dice|
    ensures forall i :: 0 <= i < |dice| ==> (s[i] == 'W' <==> dice[i] == White)
    ensures forall i :: 0 <= i < |s| ==> s[i] == 'W' || s[i] == 'B'
  {
    if dice == [] then "" else [FaceLetter(dice[0])] + DiceString(dice[1..])
  }

  /** Reads a dice string back: 'W' is white, every other letter black. */
  function ParseDiceString(s: string): (dice: seq<Face>)
    ensures |dice| == |s|
  {
    if s == "" then [] else [if s[0] == 'W' then White else Black] + ParseDiceString(s[1..])
  }

  /** The dice string loses nothing: reading it back gives the faces. */
  lemma {:induction false} DiceStringRoundTrip(dice: seq<Face>)
    ensures ParseDiceString(DiceString(dice)) == dice
  {
    if dice != [] {
      DiceStringRoundTrip(dice[1..]);
      assert DiceString(dice)[1..] == DiceString(dice[1..]);
    }
  }

  // ---------------------------------------------------------------------
  // Hit test and clamp on the canvas
  // ---------------------------------------------------------------------

  /** The point p lies within distance r of the centre c (for r >= 0 this is
      the square-root test written without the root). */
  predicate Within(c: Point, p: Point, r: int)
  {
    (p.x - c.x) * (p.x - c.x) + (p.y - c.y) * (p.y - c.y) <= r * r
  }

  /** The highest index whose centre is within r of p, or -1 when none is. */
  function TopmostHit(centres: seq<Point>, p: Point, r: int): (i: int)
    ensures -1 <= i < |centres|
    ensures i >= 0 ==> Within(centres[i], p, r)
    ensures forall k :: i < k < |centres| ==> !Within(centres[k], p, r)
  {
    if centres == [] then -1
    else if Within(centres[|centres| - 1], p, r) then |centres| - 1
    else TopmostHit(centres[..|centres| - 1], p, r)
  }

  /** Math.max(r, Math.min(extent - r, v)): keeps a coordinate a radius away
      from both edges of an extent. */
  function Clamp(v: int, r: int, extent: int): (c: int)
    ensures extent >= 2 * r ==> r <= c <= extent - r
    ensures r <= v <= extent - r ==> c == v
    ensures extent >= 2 * r && v < r ==> c == r
    ensures extent >= 2 * r && v > extent - r ==> c == extent - r
  {
    Max(r, Min(extent - r, v))
  }

  /** Clamping twice is clamping once, whatever the extent. */
  lemma ClampIdempotent(v: int, r: int, extent: int)
    ensures Clamp(Clamp(v, r, extent), r, extent) == Clamp(v, r, extent)
  {
  }
}
