/**
 * The two enumerations the engine is built on (src/lib/types.ts:1-13): the ten
 * elementary relation steps a chain is made of, and the user's gender.
 */
module Steps {

  datatype Step =
    | Father | Mother | Husband | Wife
    | OlderBrother | YoungerBrother | OlderSister | YoungerSister
    | Son | Daughter

  datatype Gender = Male | Female

  /** The step's name as the repository spells it. */
  function StepName(s: Step): string
  {
    match s
    case Father => "father"
    case Mother => "mother"
    case Husband => "husband"
    case Wife => "wife"
    case OlderBrother => "older_brother"
    case YoungerBrother => "younger_brother"
    case OlderSister => "older_sister"
    case YoungerSister => "younger_sister"
    case Son => "son"
    case Daughter => "daughter"
  }
}
