/** The replace-all rule the chart encoder applies. Every rule the encoder
    uses replaces a single character, so a rule is a character and its
    replacement text (the regular expression `\+` denotes a literal plus). */
module Replacer {

  datatype Replacer = Replacer(target: char, replacement: string)
  {
    /** `s` with every occurrence of `target` replaced by `replacement`. */
    function Process(s: string): (t: string)
      ensures target !in s ==> t == s
      ensures target !in replacement ==> target !in t
    {
      if s == [] then ""
      else (if s[0] == target then replacement else [s[0]]) + Process(s[1..])
    }

    /** Replacing in a concatenation replaces in each part. */
    lemma {:induction false} ProcessAppend(a: string, b: string)
      ensures Process(a + b) == Process(a) + Process(b)
    {
      if a == [] {
        assert a + b == b;
      } else {
        assert (a + b)[0] == a[0] && (a + b)[1..] == a[1..] + b;
        ProcessAppend(a[1..], b);
      }
    }
  }
}
