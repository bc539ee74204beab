/**
 * function_programming/closures: `is_valid_user` takes its two validators as
 * closures. The simple validator captures (moves) the string "banned_user";
 * here the captured value is a parameter of the closure's function.
 */
module Closures {

  const BannedUser := "banned_user"

  /** `is_valid_user`: `simple_validator(name) && advance_validator(age)`. */
  function IsValidUser(name: string, age: int,
                       simpleValidator: string -> bool, advanceValidator: int -> bool): bool
  {
    simpleValidator(name) && advanceValidator(age)
  }

  /** The `validate_user_simple` closure, with its captured `banned_user`. */
  function ValidateUserSimple(bannedUsername: string, name: string): bool
  {
    |name| != 0 && name != bannedUsername
  }

  /** The `validate_user_advance` closure. */
  function ValidateUserAdvance(age: int): bool
  {
    age >= 30
  }

  /** `is_valid_user` with the two closures of `main`. */
  function IsValidUserInMain(name: string, age: int): bool
  {
    IsValidUser(name, age, n => ValidateUserSimple(BannedUser, n), ValidateUserAdvance)
  }

  /**
   * With the closures of `main`, a user is valid exactly when the name is
   * neither empty nor "banned_user" and the age is at least 30.
   */
  lemma IsValidUserInMainIff(name: string, age: int)
    ensures IsValidUserInMain(name, age) <==> name != "" && name != BannedUser && age >= 30
  {
  }

  /** When the name is rejected the age validator is never consulted. */
  lemma ShortCircuit(name: string, age: int, simple: string -> bool, a1: int -> bool, a2: int -> bool)
    requires !simple(name)
    ensures !IsValidUser(name, age, simple, a1)
    ensures IsValidUser(name, age, simple, a1) == IsValidUser(name, age, simple, a2)
  {
  }

  /** The simple closure rejects the empty name and, among the others, only "banned_user". */
  lemma SimpleValidatorRejects(name: string)
    ensures !ValidateUserSimple(BannedUser, "")
    ensures name != "" ==> (!ValidateUserSimple(BannedUser, name) <==> name == "banned_user")
  {
  }

  /** The run in `main`: "Ayush", aged 24, is not a valid user. */
  lemma MainResult()
    ensures !IsValidUserInMain("Ayush", 24)
  {
  }
}
