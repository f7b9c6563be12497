/** Handedness of a square dance formation. */
module Hands {

  /** Any integer is a Handedness; only the three constants below are named. */
  newtype Handedness = int

  const NoHanded: Handedness := 0
  const RightHanded: Handedness := 1
  const LeftHanded: Handedness := 2

  /** Swaps right and left; NoHanded and every unnamed value give NoHanded. */
  function Opposite(h: Handedness): (r: Handedness)
    ensures h == RightHanded <==> r == LeftHanded
    ensures h == LeftHanded <==> r == RightHanded
    ensures r == NoHanded <==> h != RightHanded && h != LeftHanded
  {
    if h == NoHanded then NoHanded
    else if h == RightHanded then LeftHanded
    else if h == LeftHanded then RightHanded
    else NoHanded
  }

  /** Opposite is an involution on the three named values, and nothing else is its own opposite except NoHanded. */
  lemma OppositeInvolution(h: Handedness)
    ensures h == NoHanded || h == RightHanded || h == LeftHanded ==> Opposite(Opposite(h)) == h
    ensures Opposite(h) == h <==> h == NoHanded
  {
  }
}
