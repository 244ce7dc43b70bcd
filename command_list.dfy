/**
 * Listing an enum's variants through `iter().filter(..).map(..).collect()`:
 * the variants that pass the filter, in declaration order, each paired with
 * its name.
 */
module CommandList {

  function Entries<C>(cs: seq<C>, name: C -> string, visible: C -> bool): (r: seq<(string, C)>)
    ensures |r| <= |cs|
  {
    if cs == [] then []
    else (if visible(cs[0]) then [(name(cs[0]), cs[0])] else []) + Entries(cs[1..], name, visible)
  }

  function Listed<C>(entries: seq<(string, C)>): (r: seq<C>)
    ensures |r| == |entries| && forall i :: 0 <= i < |r| ==> r[i] == entries[i].1
  {
    seq(|entries|, i requires 0 <= i < |entries| => entries[i].1)
  }

  /** `xs` is `ys` with some elements left out and the rest kept in their order. */
  predicate IsSubsequence<C(==)>(xs: seq<C>, ys: seq<C>)
    decreases |ys|
  {
    if xs == [] then true
    else if ys == [] then false
    else if xs[0] == ys[0] then IsSubsequence(xs[1..], ys[1..])
    else IsSubsequence(xs, ys[1..])
  }

  lemma {:induction false} SubsequenceOfTail<C>(xs: seq<C>, ys: seq<C>)
    requires xs != [] && IsSubsequence(xs, ys)
    ensures IsSubsequence(xs[1..], ys)
    decreases |ys|
  {
    if xs[0] == ys[0] {
      if xs[1..] != [] {
        SubsequenceOfTail(xs[1..], ys[1..]);
        SubsequenceDropHead(xs[1..], ys);
      }
    } else {
      SubsequenceOfTail(xs, ys[1..]);
      if xs[1..] != [] {
        SubsequenceDropHead(xs[1..], ys);
      }
    }
  }

  /** Leaving out one more element of `ys` keeps a subsequence a subsequence. */
  lemma {:induction false} SubsequenceDropHead<C>(xs: seq<C>, ys: seq<C>)
    requires ys != [] && IsSubsequence(xs, ys[1..])
    ensures IsSubsequence(xs, ys)
    decreases |ys|, 1
  {
    if xs != [] && xs[0] == ys[0] {
      SubsequenceOfTail(xs, ys[1..]);
    }
  }

  /** Every entry is a variant that passes the filter, paired with its own name. */
  lemma {:induction false} EntriesNamed<C>(cs: seq<C>, name: C -> string, visible: C -> bool)
    ensures forall e :: e in Entries(cs, name, visible) ==> e.0 == name(e.1) && visible(e.1) && e.1 in cs
  {
    if cs != [] {
      EntriesNamed(cs[1..], name, visible);
      var rest := Entries(cs[1..], name, visible);
      assert forall x :: x in cs[1..] ==> x in cs;
      if visible(cs[0]) {
        assert Entries(cs, name, visible) == [(name(cs[0]), cs[0])] + rest;
      } else {
        assert Entries(cs, name, visible) == rest;
      }
    }
  }

  /** A variant is listed exactly when it is among `cs` and passes the filter. */
  lemma {:induction false} EntriesMembers<C>(cs: seq<C>, name: C -> string, visible: C -> bool, c: C)
    ensures (name(c), c) in Entries(cs, name, visible) <==> c in cs && visible(c)
  {
    if cs != [] {
      EntriesMembers(cs[1..], name, visible, c);
      assert c in cs <==> c == cs[0] || c in cs[1..];
    }
  }

  /** The listing keeps the declaration order, and leaves nothing out when everything passes. */
  lemma {:induction false} EntriesInOrder<C>(cs: seq<C>, name: C -> string, visible: C -> bool)
    ensures IsSubsequence(Listed(Entries(cs, name, visible)), cs)
    ensures (forall i :: 0 <= i < |cs| ==> visible(cs[i])) ==> Listed(Entries(cs, name, visible)) == cs
  {
    if cs != [] {
      EntriesInOrder(cs[1..], name, visible);
      var rest := Entries(cs[1..], name, visible);
      if visible(cs[0]) {
        var r := [(name(cs[0]), cs[0])] + rest;
        assert Entries(cs, name, visible) == r;
        assert Listed(r) == [cs[0]] + Listed(rest);
        assert Listed(r)[1..] == Listed(rest);
      } else {
        assert Entries(cs, name, visible) == rest;
        if Listed(rest) != [] {
          SubsequenceDropHead(Listed(rest), cs);
        }
      }
      assert forall i :: 0 <= i < |cs| - 1 ==> cs[1..][i] == cs[i + 1];
    }
  }

  /** When every variant passes the filter, all of them are listed, in order. */
  lemma EntriesAllVisible<C>(cs: seq<C>, name: C -> string, visible: C -> bool)
    requires forall c :: visible(c)
    ensures Listed(Entries(cs, name, visible)) == cs
  {
    EntriesInOrder(cs, name, visible);
  }
}
