/**
 * The two anchored regular expressions the validators use with `re.match`: `^\d{6}$` and
 * `^\d{4}-\d{2}-\d{2}$`. In Python `$` matches at the end of the text and also just before a
 * newline that ends it, so each pattern admits one trailing `\n`.
 */
module Patterns {

  import opened PyText

  /** Where `$` matches after `n` characters: at the end, or before a final newline. */
  predicate DollarAt(s: string, n: nat) {
    |s| == n || (|s| == n + 1 && s[n] == '\n')
  }

  /** `re.match(r'^\d{6}$', s)`. */
  predicate MatchesSixDigits(s: string) {
    |s| >= 6 && AllDigits(s[..6]) && DollarAt(s, 6)
  }

  /** Exactly `DDDD-DD-DD`. */
  predicate IsDateShape(s: string) {
    && |s| == 10
    && AllDigits(s[..4]) && s[4] == '-' && AllDigits(s[5..7]) && s[7] == '-' && AllDigits(s[8..])
  }

  /** `re.match(r'^\d{4}-\d{2}-\d{2}$', s)`. */
  predicate MatchesDateShape(s: string) {
    |s| >= 10 && IsDateShape(s[..10]) && DollarAt(s, 10)
  }

  /** The six-digit pattern admits six digits, optionally followed by one newline, and nothing else. */
  lemma MatchesSixDigitsExactly(s: string)
    ensures MatchesSixDigits(s) <==>
      (|s| == 6 && AllDigits(s)) || (|s| == 7 && AllDigits(s[..6]) && s[6] == '\n')
  {
    if |s| == 6 {
      assert s[..6] == s;
    }
  }

  /** Text that does not end in a space (a stripped text, say) matches only as six digits. */
  lemma MatchesSixDigitsNoTrailingSpace(s: string)
    requires s == [] || !IsSpace(s[|s| - 1])
    ensures MatchesSixDigits(s) <==> |s| == 6 && AllDigits(s)
  {
    MatchesSixDigitsExactly(s);
  }

  /** The newline that `$` tolerates is visible: `"005930\n"` matches. */
  lemma SixDigitsWithNewline()
    ensures MatchesSixDigits("005930\n")
  {
    MatchesSixDigitsExactly("005930\n");
  }
}
