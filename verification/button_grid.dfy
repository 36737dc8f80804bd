/**
 * How the keypad of src/components/ButtonGrid.jsx turns a pressed key into
 * the call it makes on the turn engine: the `(score, type)` pair handed to
 * `addThrow`, or `undoLastThrow`, or nothing. Only the value resolution is
 * modelled; the gesture machinery that decides which of these functions
 * applies (hold timers, pointer tracking) is not.
 */
module ButtonGrid {
  import opened Wrappers
  import opened GameContext

  /** The keys above the number pad. */
  datatype SpecialKey = MissKey | BullKey | CherryKey | BustKey | UndoKey

  /** A keypad button: one of the twenty numbered faces or a special key. */
  datatype Button = Number(face: int) | Special(key: SpecialKey)

  /** The score argument of `addThrow`: a number, or the string "BUST". */
  datatype DartScore = Points(value: int) | BustToken

  /** What pressing a button asks of the engine. */
  datatype Emission =
    | AddThrowCall(score: DartScore, kind: ThrowKind)
    | UndoLastThrowCall
    | NoCall

  /** Colour classes of the multiplier popup. */
  datatype Colour = Red | Green

  /** An axis-aligned button rectangle in client coordinates. */
  datatype Rect = Rect(left: real, top: real, right: real, bottom: real)

  /** The numbered faces in keypad order. */
  const Faces: seq<int> := seq(20, i => i + 1)

  /** The standard clockwise dartboard sequence. */
  const DartboardOrder: seq<int> :=
    [20, 1, 18, 4, 13, 6, 10, 15, 2, 17, 3, 19, 7, 16, 8, 11, 14, 9, 12, 5]

  /** The multipliers of the popup's children, in their visual order. */
  const PopupMultipliers: seq<int> := [3, 2]

  /** Array `indexOf`: the first position of `x` in `s`, or -1. */
  function IndexOf(s: seq<int>, x: int): (r: int)
    ensures -1 <= r < |s|
    ensures r >= 0 ==> s[r] == x
    ensures forall j :: 0 <= j < |s| && (r == -1 || j < r) ==> s[j] != x
  {
    if s == [] then -1
    else if s[0] == x then 0
    else
      var k := IndexOf(s[1..], x);
      if k == -1 then -1 else k + 1
  }

  /**
   * The colour of the popup buttons for face `num`: red when its position
   * in the dartboard order is even, green otherwise. A number absent from
   * the order has position -1 and is green; `-1 % 2` is non-zero under
   * JavaScript's truncating remainder as under Dafny's, so evenness agrees.
   */
  function MultiplierColour(num: int): (c: Colour)
    ensures num !in DartboardOrder ==> c == Green
  {
    if IndexOf(DartboardOrder, num) % 2 == 0 then Red else Green
  }

  /** `mults[idx] ?? null`: the multiplier under popup child `idx`. */
  function PopupMultiplier(idx: int): (m: Option<int>)
    ensures m == Some(3) <==> idx == 0
    ensures m == Some(2) <==> idx == 1
    ensures m == None <==> idx != 0 && idx != 1
  {
    if 0 <= idx < |PopupMultipliers| then Some(PopupMultipliers[idx]) else None
  }

  /** True when pressing with the pointer at `(x, y)` lands inside `r`, edges included. */
  predicate Inside(x: real, y: real, r: Rect)
  {
    r.left <= x <= r.right && r.top <= y <= r.bottom
  }

  /**
   * The release test of the anchor button is inclusive: a point on any
   * edge of the rectangle counts as inside, and a point beyond any edge
   * does not.
   */
  lemma InsideIsInclusive(x: real, y: real, r: Rect)
    ensures r.left <= r.right && r.top <= r.bottom ==>
      Inside(r.left, r.top, r) && Inside(r.right, r.bottom, r) &&
      Inside(r.left, r.bottom, r) && Inside(r.right, r.top, r)
    ensures x < r.left || x > r.right || y < r.top || y > r.bottom ==> !Inside(x, y, r)
    ensures r.left <= x <= r.right && r.top <= y <= r.bottom ==> Inside(x, y, r)
  {
  }

  /** The throw types a numbered face can produce. */
  predicate FaceKind(k: ThrowKind)
  {
    k == Single || k == Double || k == Triple
  }

  /** The throw types only the special keys produce. */
  predicate SpecialKind(k: ThrowKind)
  {
    k == Miss || k == Bull || k == Cherry || k == Bust
  }

  /**
   * Releasing a quick tap (no long press): a numbered face records a single
   * of its own value; a special key acts through its click handler instead.
   */
  function QuickTapRelease(b: Button): (e: Emission)
    ensures e.AddThrowCall? <==> b.Number?
    ensures b.Number? ==> e == AddThrowCall(Points(b.face), Single)
    ensures e.AddThrowCall? ==> FaceKind(e.kind)
    ensures !e.UndoLastThrowCall?
  {
    match b
    case Number(n) => AddThrowCall(Points(n), Single)
    case Special(_) => NoCall
  }

  /** Enter or Space on a focused numbered face records a single. */
  function KeyDown(face: int, key: string): (e: Emission)
    ensures e.AddThrowCall? <==> key == "Enter" || key == " "
    ensures e.AddThrowCall? ==> e == AddThrowCall(Points(face), Single)
    ensures e.AddThrowCall? || e.NoCall?
  {
    if key == "Enter" || key == " " then AddThrowCall(Points(face), Single) else NoCall
  }

  /**
   * Releasing the pointer while the popup for `face` is open. A hovered
   * multiplier `m` records `face * m` as a double when `m` is 2 and as a
   * triple otherwise; with nothing hovered, a release inside the face's
   * own button records a single, and any other release records nothing.
   */
  function PopupRelease(face: int, hovered: Option<int>, x: real, y: real, anchor: Rect): (e: Emission)
    ensures hovered == Some(2) ==> e == AddThrowCall(Points(face * 2), Double)
    ensures hovered == Some(3) ==> e == AddThrowCall(Points(face * 3), Triple)
    ensures hovered == None ==> (e == AddThrowCall(Points(face), Single) <==> Inside(x, y, anchor))
    ensures hovered == None && !Inside(x, y, anchor) ==> e == NoCall
    ensures e.AddThrowCall? ==> FaceKind(e.kind)
    ensures !e.UndoLastThrowCall?
  {
    // `if (hoveredMult)`: null and 0 are both falsy
    if hovered.Some? && hovered.value != 0 then
      var m := hovered.value;
      AddThrowCall(Points(face * m), if m == 2 then Double else Triple)
    else if Inside(x, y, anchor) then
      AddThrowCall(Points(face), Single)
    else
      NoCall
  }

  /** The click handler of the special keys. */
  function SpecialClick(k: SpecialKey): (e: Emission)
    ensures k == MissKey ==> e == AddThrowCall(Points(0), Miss)
    ensures k == BullKey ==> e == AddThrowCall(Points(25), Bull)
    ensures k == CherryKey ==> e == AddThrowCall(Points(50), Cherry)
    ensures k == BustKey ==> e == AddThrowCall(BustToken, Bust)
    ensures e.UndoLastThrowCall? <==> k == UndoKey
    ensures e.AddThrowCall? ==> SpecialKind(e.kind)
  {
    match k
    case MissKey => AddThrowCall(Points(0), Miss)
    case BullKey => AddThrowCall(Points(25), Bull)
    case CherryKey => AddThrowCall(Points(50), Cherry)
    case BustKey => AddThrowCall(BustToken, Bust)
    case UndoKey => UndoLastThrowCall
  }

  // ---------------------------------------------------------------------
  // Properties

  /** The numbered faces are exactly 1 to 20, once each. */
  lemma FacesAreOneToTwenty()
    ensures |Faces| == 20
    ensures forall n :: n in Faces <==> 1 <= n <= 20
  {
    forall n | 1 <= n <= 20 ensures n in Faces {
      assert Faces[n - 1] == n;
    }
  }

  /** Every position of the dartboard order holds a different number. */
  predicate Distinct(s: seq<int>)
  {
    forall i, j :: 0 <= i < j < |s| ==> s[i] != s[j]
  }

  /** Where face `k + 1` sits in the dartboard order (a proof device). */
  ghost const BoardPosition: seq<int> :=
    [1, 8, 10, 3, 19, 5, 12, 14, 17, 6, 15, 18, 4, 16, 7, 13, 9, 2, 11, 0]

  /** `BoardPosition` inverts the dartboard order in both directions. */
  lemma BoardPositionInverts()
    ensures forall i :: 0 <= i < |DartboardOrder| ==>
      1 <= DartboardOrder[i] <= 20 && BoardPosition[DartboardOrder[i] - 1] == i
    ensures forall k :: 0 <= k < |BoardPosition| ==>
      0 <= BoardPosition[k] < |DartboardOrder| && DartboardOrder[BoardPosition[k]] == k + 1
  {
  }

  /** The dartboard order lists every face exactly once and nothing else. */
  lemma DartboardOrderIsPermutationOfFaces()
    ensures |DartboardOrder| == |Faces| && Distinct(DartboardOrder)
    ensures forall n :: n in DartboardOrder <==> n in Faces
  {
    FacesAreOneToTwenty();
    BoardPositionInverts();
    forall n | 1 <= n <= 20 ensures n in DartboardOrder {
      assert DartboardOrder[BoardPosition[n - 1]] == n;
    }
  }

  /** In a sequence without repeats, `IndexOf` finds each element at its own position. */
  lemma IndexOfDistinct(s: seq<int>, i: int)
    requires Distinct(s) && 0 <= i < |s|
    ensures IndexOf(s, s[i]) == i
  {
  }

  /** Colours alternate around the board, starting with red at 20. */
  lemma ColourAlternates(i: int)
    requires 0 <= i < |DartboardOrder|
    ensures MultiplierColour(DartboardOrder[i]) == if i % 2 == 0 then Red else Green
  {
    DartboardOrderIsPermutationOfFaces();
    IndexOfDistinct(DartboardOrder, i);
  }

  /** Popup child 0 gives the triple and child 1 the double of the held face. */
  lemma ReleaseOverPopupChild(face: int, idx: int, x: real, y: real, anchor: Rect)
    requires idx == 0 || idx == 1
    ensures var e := PopupRelease(face, PopupMultiplier(idx), x, y, anchor);
      e == if idx == 0 then AddThrowCall(Points(face * 3), Triple)
           else AddThrowCall(Points(face * 2), Double)
  {
  }

  /**
   * Miss, bull, cherry and bust come from the special keys alone: no
   * gesture on a numbered face yields them, and each special key that
   * records a throw yields one of them.
   */
  lemma SpecialKindsOnlyFromSpecialKeys(b: Button, key: string, hovered: Option<int>,
                                        x: real, y: real, anchor: Rect)
    requires b.Number?
    ensures var e := QuickTapRelease(b); e.AddThrowCall? ==> !SpecialKind(e.kind)
    ensures var e := KeyDown(b.face, key); e.AddThrowCall? ==> !SpecialKind(e.kind)
    ensures var e := PopupRelease(b.face, hovered, x, y, anchor); e.AddThrowCall? ==> !SpecialKind(e.kind)
  {
  }
}
