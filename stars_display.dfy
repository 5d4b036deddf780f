/** The five-star display of a value on a 0..5 scale, with half stars. */
module StarsDisplay {

  /** The three star glyphs: "star", "star-half" and "star-outline". */
  datatype Icon = Full | Half | Outline

  /** `Math.trunc`. */
  function Trunc(v: real): int {
    if v >= 0.0 then v.Floor else -((-v).Floor)
  }

  /** `v % 1` in JavaScript: the remainder keeps the sign of `v`. */
  function JsRemOne(v: real): (r: real)
    ensures -1.0 < r < 1.0
    ensures v >= 0.0 ==> r == v - v.Floor as real && 0.0 <= r
    ensures v < 0.0 ==> r <= 0.0
  {
    v - Trunc(v) as real
  }

  /** `StarsDisplay`: for i = 1..5, a full star while i <= floor(value),
      then a half star at floor(value) + 1 when `value % 1 >= 0.5`, and
      outlines for the rest. At most one half star is drawn. */
  method Render(value: real) returns (stars: seq<Icon>)
    ensures |stars| == 5
    ensures forall k :: 0 <= k < 5 ==> (stars[k] == Full <==> k + 1 <= value.Floor)
    ensures forall k :: 0 <= k < 5 ==> (stars[k] == Half <==> k == value.Floor && JsRemOne(value) >= 0.5)
    ensures forall k, j :: 0 <= k < 5 && 0 <= j < 5 && stars[k] == Half && stars[j] == Half ==> k == j
  {
    var full := value.Floor;
    var half := JsRemOne(value) >= 0.5;
    stars := [];
    var i := 1;
    while i <= 5
      invariant 1 <= i <= 6 && |stars| == i - 1
      invariant forall k :: 0 <= k < |stars| ==> (stars[k] == Full <==> k + 1 <= full)
      invariant forall k :: 0 <= k < |stars| ==> (stars[k] == Half <==> k == full && half)
    {
      if i <= full {
        stars := stars + [Full];
      } else if i == full + 1 && half {
        stars := stars + [Half];
      } else {
        stars := stars + [Outline];
      }
      i := i + 1;
    }
  }
}
