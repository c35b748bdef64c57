/** The local part of `title_generator`: stripping double quotes from the
    title the upstream model returns. */
module Titles {

  /** `title.replace('"', "")`. */
  function StripQuotes(s: string): (r: string)
    ensures forall i :: 0 <= i < |r| ==> r[i] != '"'
    ensures forall c :: c != '"' ==> multiset(r)[c] == multiset(s)[c]
    ensures |r| == |s| - multiset(s)['"']
    ensures (forall i :: 0 <= i < |s| ==> s[i] != '"') ==> r == s
  {
    if s == [] then []
    else
      assert s == [s[0]] + s[1..];
      (if s[0] == '"' then [] else [s[0]]) + StripQuotes(s[1..])
  }

  /** Stripping distributes over concatenation, so the characters that stay
      keep their order. */
  lemma {:induction false} StripQuotesAppend(a: string, b: string)
    ensures StripQuotes(a + b) == StripQuotes(a) + StripQuotes(b)
    decreases |a|
  {
    if a == [] {
      assert a + b == b;
    } else {
      assert (a + b)[1..] == a[1..] + b;
      StripQuotesAppend(a[1..], b);
    }
  }
}
