/**
 * function_programming/combinators: keep the words that start with "a" or
 * "b" and upper-case them, written once as a `filter`/`map`/`collect` chain
 * and once, in a comment of the same file, as a `for` loop that `push`es into
 * a mutable vector. Upper-casing is modelled on ASCII letters only.
 */
module Combinators {
  import opened Adapters

  /** `str::starts_with`: `prefix` is the beginning of `s`, compared case-sensitively. */
  predicate StartsWith(s: string, prefix: string)
  {
    |prefix| <= |s| && s[..|prefix|] == prefix
  }

  /** The filter closure `word.starts_with("a") || word.starts_with("b")`. */
  predicate Keep(word: string)
  {
    StartsWith(word, "a") || StartsWith(word, "b")
  }

  /** ASCII `to_uppercase` of one character. */
  function UpperChar(c: char): char
  {
    if 'a' <= c <= 'z' then (c as int - 32) as char else c
  }

  /** ASCII `to_uppercase` of a word: every character upper-cased, in place. */
  function ToUppercase(word: string): (r: string)
    ensures |r| == |word|
    ensures forall i :: 0 <= i < |word| ==> r[i] == UpperChar(word[i])
  {
    if word == [] then [] else [UpperChar(word[0])] + ToUppercase(word[1..])
  }

  /** `words.into_iter().filter(...).map(...).collect()`. */
  function Pipeline(words: seq<string>): seq<string>
  {
    Map(ToUppercase, Filter(Keep, words))
  }

  /** The pipeline distributes over concatenation, so the input order is kept. */
  lemma {:induction false} PipelineAppend(a: seq<string>, b: seq<string>)
    ensures Pipeline(a + b) == Pipeline(a) + Pipeline(b)
  {
    if a == [] {
      assert a + b == b;
    } else {
      assert (a + b)[1..] == a[1..] + b;
      PipelineAppend(a[1..], b);
    }
  }

  /**
   * The output holds exactly the upper-cased input words that start with "a"
   * or "b", and is never longer than the input.
   */
  lemma {:induction false} PipelineMembers(words: seq<string>, out: string)
    ensures |Pipeline(words)| <= |words|
    ensures out in Pipeline(words) <==>
              exists i :: 0 <= i < |words| && Keep(words[i]) && out == ToUppercase(words[i])
  {
    if words != [] {
      PipelineMembers(words[1..], out);
      assert forall i :: 1 <= i < |words| ==> words[i] == words[1..][i - 1];
      if out in Pipeline(words[1..]) {
        var j :| 0 <= j < |words[1..]| && Keep(words[1..][j]) && out == ToUppercase(words[1..][j]);
        assert words[j + 1] == words[1..][j];
      }
    }
  }

  /** On one word the pipeline keeps and upper-cases it, or drops it. */
  lemma PipelineSingle(word: string)
    ensures Pipeline([word]) == if Keep(word) then [ToUppercase(word)] else []
  {
    assert [word][1..] == [];
  }

  /** The commented `for` loop: push the upper-cased word whenever it passes the test. */
  method LoopVersion(words: seq<string>) returns (result: seq<string>)
    ensures result == Pipeline(words)
  {
    result := [];
    for k := 0 to |words|
      invariant result == Pipeline(words[..k])
    {
      var word := words[k];
      if StartsWith(word, "a") || StartsWith(word, "b") {
        var uppercaseWord := ToUppercase(word);
        result := result + [uppercaseWord];
      }
      assert words[..k + 1] == words[..k] + [word];
      PipelineAppend(words[..k], [word]);
      PipelineSingle(word);
    }
    assert words[..|words|] == words;
  }

  /** `starts_with` is case-sensitive: "Apple" is dropped. */
  lemma CaseSensitive()
    ensures !Keep("Apple") && Keep("apple")
  {
    assert "Apple"[..1] == "A";
    assert "apple"[..1] == "a";
  }

  /** The filter step of `main`: only "apple" and "banana" pass. */
  lemma MainFilter()
    ensures Filter(Keep, ["apple", "banana", "grape", "orange", "pear"]) == ["apple", "banana"]
  {
    var words := ["apple", "banana", "grape", "orange", "pear"];
    assert "apple"[..1] == "a" && "banana"[..1] == "b";
    assert "grape"[..1] == "g" && "orange"[..1] == "o" && "pear"[..1] == "p";
    assert Filter(Keep, words[4..]) == [];
    assert Filter(Keep, words[3..]) == [];
    assert Filter(Keep, words[2..]) == [];
    assert Filter(Keep, words[1..]) == ["banana"];
  }

  /** The map step of `main`. */
  lemma MainMap()
    ensures Map(ToUppercase, ["apple", "banana"]) == ["APPLE", "BANANA"]
  {
    assert ToUppercase("apple") == "APPLE";
    assert ToUppercase("banana") == "BANANA";
  }

  /** The run in `main`. */
  lemma MainValue()
    ensures Pipeline(["apple", "banana", "grape", "orange", "pear"]) == ["APPLE", "BANANA"]
  {
    MainFilter();
    MainMap();
  }
}
