/**
 * macros/repeating-macros: the expansions of `string_concat!` and `vec_mac!`.
 * Each expansion starts from an empty string or vector and pushes its macro
 * arguments one by one; the arguments are given here as a sequence, and the
 * `$(...)*` repetition is a loop over it.
 */
module RepeatingMacros {

  /** The arguments joined left to right. */
  function Concat(parts: seq<string>): string
  {
    if parts == [] then "" else Concat(parts[..|parts| - 1]) + parts[|parts| - 1]
  }

  /** The total length of the arguments. */
  function TotalLength(parts: seq<string>): nat
  {
    if parts == [] then 0 else TotalLength(parts[..|parts| - 1]) + |parts[|parts| - 1]|
  }

  /** The expansion of `string_concat!($($some_str),*)`. */
  method StringConcat(someStrs: seq<string>) returns (tempStr: string)
    ensures tempStr == Concat(someStrs)
  {
    tempStr := "";
    for k := 0 to |someStrs|
      invariant tempStr == Concat(someStrs[..k])
    {
      assert someStrs[..k + 1][..k] == someStrs[..k];
      tempStr := tempStr + someStrs[k];
    }
    assert someStrs[..|someStrs|] == someStrs;
  }

  /** The expansion of `vec_mac!($($element),*)`: the arguments, in order. */
  method VecMac<T>(elements: seq<T>) returns (someVec: seq<T>)
    ensures someVec == elements
  {
    someVec := [];
    for k := 0 to |elements|
      invariant someVec == elements[..k]
    {
      someVec := someVec + [elements[k]];
    }
  }

  /** Concatenating no arguments gives "", one argument gives a copy of it. */
  lemma ConcatSmall(s: string)
    ensures Concat([]) == ""
    ensures Concat([s]) == s
  {
    assert [s][..0] == [];
  }

  /** Joining two runs of arguments is joining their results. */
  lemma {:induction false} ConcatAppend(a: seq<string>, b: seq<string>)
    ensures Concat(a + b) == Concat(a) + Concat(b)
    decreases |b|
  {
    if b == [] {
      assert a + b == a;
    } else {
      assert (a + b)[..|a + b| - 1] == a + b[..|b| - 1];
      ConcatAppend(a, b[..|b| - 1]);
    }
  }

  /** The result is as long as all arguments together. */
  lemma {:induction false} ConcatLength(parts: seq<string>)
    ensures |Concat(parts)| == TotalLength(parts)
  {
    if parts != [] {
      ConcatLength(parts[..|parts| - 1]);
    }
  }

  /** The invocations in `main`. */
  method MainRun()
    returns (strNull: string, singleString: string, doubleString: string,
             repeatedString: string, stringVec: seq<string>)
    ensures strNull == ""
    ensures singleString == "First"
    ensures doubleString == "FirstSecond"
    ensures repeatedString == "One Two ThreeFour"
    ensures stringVec == ["Ayush", "Joshi"]
  {
    strNull := StringConcat([]);
    singleString := StringConcat(["First"]);
    doubleString := StringConcat(["First", "Second"]);
    var four := ["One ", "Two ", "Three", "Four"];
    repeatedString := StringConcat(four);
    assert four[..3][..2][..1] == ["One "] && four[..3][..2] == ["One ", "Two "];
    assert Concat(["One "]) == "One " by { ConcatSmall("One "); }
    assert Concat(four[..3][..2]) == "One Two ";
    assert Concat(four[..3]) == "One Two Three";
    stringVec := VecMac(["Ayush", "Joshi"]);
  }
}
