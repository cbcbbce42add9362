/** Rejection sampling as the experiment uses it: keep drawing until the
    value differs from one to avoid. The draws are supplied by the caller as
    a finite sequence of candidates; when that sequence runs out before a
    different value appears, the outcome is `None`. */
module Sampling {

  datatype Option<T> = None | Some(value: T)

  /** The position at which a "draw again while equal to `avoid`" loop stops
      when it is fed `cands` in order: the first candidate that differs from
      `avoid`, or `None` when every candidate equals it. */
  function FirstDifferent<T(==)>(cands: seq<T>, avoid: T): (r: Option<nat>)
    ensures r.Some? ==> r.value < |cands| && cands[r.value] != avoid
    ensures r.Some? ==> forall j :: 0 <= j < r.value ==> cands[j] == avoid
    ensures r.None? <==> forall j :: 0 <= j < |cands| ==> cands[j] == avoid
  {
    if |cands| == 0 then None
    else if cands[0] != avoid then Some(0)
    else match FirstDifferent(cands[1..], avoid)
      case None => None
      case Some(k) => Some(k + 1)
  }

  /** A stopping position is determined by the loop's guard alone: any index
      whose candidate differs from `avoid` after a run of equal ones is the
      one `FirstDifferent` finds. */
  lemma FirstDifferentUnique<T>(cands: seq<T>, avoid: T, k: nat)
    requires k < |cands| && cands[k] != avoid
    requires forall j :: 0 <= j < k ==> cands[j] == avoid
    ensures FirstDifferent(cands, avoid) == Some(k)
  {
  }

  /** Extending the candidates never changes a stop that already happened:
      a longer supply of draws only helps when the shorter one ran out. */
  lemma {:induction false} FirstDifferentExtend<T>(cands: seq<T>, more: seq<T>, avoid: T)
    requires FirstDifferent(cands, avoid).Some?
    ensures FirstDifferent(cands + more, avoid) == FirstDifferent(cands, avoid)
  {
    if cands[0] == avoid {
      assert (cands + more)[1..] == cands[1..] + more;
      FirstDifferentExtend(cands[1..], more, avoid);
    }
  }
}
