/** The single user profile record. */
module Profile {
  import opened Wrappers

  datatype Gender = Girl | Boy {
    /** The enum constant's `name`. */
    function Name(): string {
      match this
      case Girl => "Girl"
      case Boy => "Boy"
    }
  }

  /** `Gender.valueOf(name)`: the constant with exactly that name. */
  function GenderNamed(name: string): (g: Option<Gender>)
    ensures g.Some? <==> name == "Girl" || name == "Boy"
    ensures g.Some? ==> g.value.Name() == name
  {
    if name == "Girl" then Some(Girl)
    else if name == "Boy" then Some(Boy)
    else None
  }

  /** A calendar date (`java.time.LocalDate`). */
  datatype LocalDate = LocalDate(year: int, month: int, day: int)

  datatype UserConfiguration = UserConfiguration(
    name: string,
    birthday: Option<LocalDate>,
    gender: Gender,
    diagnosis: string)

  /** The Kotlin defaults of every field. */
  const DefaultConfiguration := UserConfiguration("", None, Girl, "")

  /** Every gender is recovered from its name. */
  lemma GenderNameRoundTrip(g: Gender)
    ensures GenderNamed(g.Name()) == Some(g)
  {
  }
}
