/** Two facts about slices, kept out of the loops that need them. */
module Lists {

  lemma {:induction false} OneMore<T>(s: seq<T>, i: nat)
    requires i < |s|
    ensures s[..i + 1] == s[..i] + [s[i]]
    ensures s[..i + 1][..i] == s[..i]
  {
  }

  lemma {:induction false} All<T>(s: seq<T>)
    ensures s[..|s|] == s
  {
  }
}
