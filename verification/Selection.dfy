// Keeping the elements that qualify, in order, up to a limit.

module Selection {
  import opened Wrappers

  function Collect<A, B>(s: seq<A>, f: A -> Option<B>): seq<B> {
    if s == [] then []
    else Collect(s[..|s| - 1], f) + match f(s[|s| - 1]) case Some(b) => [b] case None => []
  }

  function Take<T>(s: seq<T>, limit: nat): seq<T> {
    if |s| <= limit then s else s[..limit]
  }

  // What the first elements give is the beginning of what all give.
  lemma {:induction false} CollectPrefix<A, B>(s: seq<A>, f: A -> Option<B>, i: nat)
    requires i <= |s|
    ensures Collect(s[..i], f) <= Collect(s, f)
    decreases |s| - i
  {
    if i == |s| {
      assert s[..i] == s;
    } else {
      CollectPrefix(s, f, i + 1);
      assert s[..i + 1][..i] == s[..i];
    }
  }

  // One step of a loop that appends what qualifies.
  lemma CollectStep<A, B>(s: seq<A>, f: A -> Option<B>, i: nat)
    requires i < |s|
    ensures Collect(s[..i + 1], f) == Collect(s[..i], f) + match f(s[i]) case Some(b) => [b] case None => []
  {
    assert s[..i + 1][..i] == s[..i];
  }

  // A loop may stop as soon as it has enough.
  lemma EnoughIsTaken<A, B>(s: seq<A>, f: A -> Option<B>, i: nat, limit: nat)
    requires i <= |s| && |Collect(s[..i], f)| == limit
    ensures Take(Collect(s, f), limit) == Collect(s[..i], f)
  {
    CollectPrefix(s, f, i);
  }

  lemma {:induction false} CollectMembers<A, B>(s: seq<A>, f: A -> Option<B>, b: B)
    ensures b in Collect(s, f) <==> exists a :: a in s && f(a) == Some(b)
  {
    if s != [] {
      CollectMembers(s[..|s| - 1], f, b);
      assert s == s[..|s| - 1] + [s[|s| - 1]];
      assert forall a :: a in s <==> a in s[..|s| - 1] || a == s[|s| - 1];
    }
  }
}
