/**
 * Swap detection shared by the two sandwich scanners: a transaction is a
 * swap when its input contains the selector of one of four router methods.
 * A selector is the first ten characters of the hexadecimal hash of the
 * method name; the hash is not modelled, so the detectors take the mapping
 * from names to selectors as a parameter.
 */
module Selectors {
  import opened Text

  /** The method names whose selectors mark a swap. */
  const SwapMethods: seq<string> :=
    ["swapExactTokensForTokens", "swapTokensForExactTokens", "swapExactETHForTokens", "swapTokensForExactETH"]

  /** Some selector of `methods` occurs in `input`. */
  function AnySelectorIn(input: string, methods: seq<string>, selectorOf: string -> string): bool
  {
    if methods == [] then false
    else Contains(input, selectorOf(methods[0])) || AnySelectorIn(input, methods[1..], selectorOf)
  }

  /** `AnySelectorIn` holds iff one of the methods' selectors occurs at some position of the input. */
  lemma {:induction false} AnySelectorInIff(input: string, methods: seq<string>, selectorOf: string -> string)
    ensures AnySelectorIn(input, methods, selectorOf) <==>
      exists m, k :: m in methods && OccursAt(input, selectorOf(m), k)
  {
    if methods != [] {
      ContainsIff(input, selectorOf(methods[0]));
      AnySelectorInIff(input, methods[1..], selectorOf);
      if AnySelectorIn(input, methods, selectorOf) {
        if Contains(input, selectorOf(methods[0])) {
          var k :| OccursAt(input, selectorOf(methods[0]), k);
          assert methods[0] in methods;
        } else {
          var m, k :| m in methods[1..] && OccursAt(input, selectorOf(m), k);
          assert m in methods;
        }
      } else {
        forall m, k | m in methods && OccursAt(input, selectorOf(m), k)
          ensures false
        {
        }
      }
    }
  }
}
