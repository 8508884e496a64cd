/** Facts about sequences shared by the other modules. */
module Sequences {

  /** Regrouping appended pieces; stated once so that callers need not search for it. */
  lemma AppendAssoc<T>(a: seq<T>, b: seq<T>, c: seq<T>)
    ensures (a + b) + c == a + (b + c)
  {
  }

  /** The pieces laid end to end, in order. */
  function Flatten<T>(parts: seq<seq<T>>): seq<T>
  {
    if parts == [] then [] else parts[0] + Flatten(parts[1..])
  }

  /** Adding a piece at the back adds its elements at the back. */
  lemma {:induction false} FlattenSnoc<T>(parts: seq<seq<T>>, last: seq<T>)
    ensures Flatten(parts + [last]) == Flatten(parts) + last
    decreases |parts|
  {
    if parts == [] {
      assert parts + [last] == [last];
      assert Flatten([last]) == last + Flatten<T>([]);
    } else {
      assert (parts + [last])[1..] == parts[1..] + [last];
      FlattenSnoc(parts[1..], last);
      AppendAssoc(parts[0], Flatten(parts[1..]), last);
    }
  }

  lemma FlattenTwo<T>(parts: seq<seq<T>>)
    requires |parts| == 2
    ensures Flatten(parts) == parts[0] + parts[1]
  {
    assert parts[1..][1..] == [];
    assert Flatten(parts[1..]) == parts[1] + [];
  }

  /**
   * A sequence that grew from `before` by `grown` and then past that: what it
   * gained over `before` is `grown` followed by the rest.
   */
  lemma GrewBy<T>(before: seq<T>, grown: seq<T>, mid: seq<T>, after: seq<T>)
    requires mid == before + grown
    requires |mid| <= |after| && after[..|mid|] == mid
    ensures |before| <= |after| && after == before + after[|before|..]
    ensures var gained := after[|before|..];
      |grown| <= |gained| && gained[..|grown|] == grown && gained[|grown|..] == after[|mid|..]
  {
    assert after == mid + after[|mid|..];
    assert after[|before|..] == grown + after[|mid|..];
  }
}
