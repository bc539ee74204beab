/**
 * function_programming/functional_pointers: the same check as with closures,
 * but the validators are plain functions passed as `fn` pointers, and the
 * simple validator has no banned name.
 */
module FunctionPointers {

  /** `is_valid_user`: `simple_validator(name) && advance_validator(age)`. */
  function IsValidUser(name: string, age: int,
                       simpleValidator: string -> bool, advanceValidator: int -> bool): bool
  {
    simpleValidator(name) && advanceValidator(age)
  }

  /** `validate_user_simple`: a non-empty name. */
  function ValidateUserSimple(name: string): bool
  {
    |name| != 0
  }

  /** `validate_user_advance`: an age of at least 30. */
  function ValidateUserAdvance(age: int): bool
  {
    age >= 30
  }

  /** With these two pointers a user is valid exactly when the name is non-empty and the age is 30 or more. */
  lemma IsValidUserIff(name: string, age: int)
    ensures IsValidUser(name, age, ValidateUserSimple, ValidateUserAdvance)
            <==> name != [] && age >= 30
  {
  }

  /** Every non-empty name passes the simple validator, "banned_user" included. */
  lemma SimpleValidatorIff(name: string)
    ensures ValidateUserSimple(name) <==> name != []
    ensures ValidateUserSimple("banned_user")
  {
  }

  /** The run in `main`: "Ayush", aged 24, is not a valid user. */
  lemma MainResult()
    ensures !IsValidUser("Ayush", 24, ValidateUserSimple, ValidateUserAdvance)
  {
  }
}
