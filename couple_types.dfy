/** Classification of a couple by the genders of its beau and belle. */
module CoupleTypes {
  import opened Dancers
  import opened Formations

  /** A normal couple: a Guy as beau (on the left) and a Gal as belle (on the right). */
  predicate IsNormal(c: Couple)
  {
    c.beau.gender == Guy && c.belle.gender == Gal
  }

  /** A half-sasheyed couple: a Gal as beau and a Guy as belle. */
  predicate IsSasheyed(c: Couple)
  {
    c.beau.gender == Gal && c.belle.gender == Guy
  }

  /** Both dancers have the same gender, in the sense of Gender.Equal. */
  predicate IsSameGender(c: Couple)
  {
    c.beau.gender.Equal(c.belle.gender)
  }

  /**
   * The three kinds exclude one another; a same-gender couple is two Guys
   * or two Gals, never one with an unspecified gender; and normal and
   * half-sasheyed couples are exactly the specified mixed couples.
   */
  lemma CoupleTypesExclusive(c: Couple)
    ensures !(IsNormal(c) && IsSasheyed(c))
    ensures IsSameGender(c) ==> !IsNormal(c) && !IsSasheyed(c)
    ensures IsSameGender(c) <==> (c.beau.gender == Guy && c.belle.gender == Guy) || (c.beau.gender == Gal && c.belle.gender == Gal)
    ensures IsNormal(c) || IsSasheyed(c) <==> c.beau.gender.Specified() && c.belle.gender == c.beau.gender.Opposite()
  {
  }

  /** Swapping the two dancers' places turns a normal couple into a half-sasheyed one and back. */
  lemma SwappedCouple(c: Couple)
    ensures IsNormal(c) <==> IsSasheyed(Couple(c.belle, c.beau))
    ensures IsSameGender(c) <==> IsSameGender(Couple(c.belle, c.beau))
  {
    GenderLaws(c.beau.gender, c.belle.gender);
  }
}
