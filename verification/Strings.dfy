/** Strings put together with colons and taken apart again. */
module Strings {

  function Join(head: string, rest: string): string {
    head + ":" + rest
  }

  /** The first place of `c`, or the length where it does not occur. */
  function FirstIndex(s: string, c: char): (i: nat)
    ensures i <= |s| && (i < |s| ==> s[i] == c)
    ensures forall k :: 0 <= k < i ==> s[k] != c
  {
    if s == [] || s[0] == c then 0 else 1 + FirstIndex(s[1..], c)
  }

  /** The last place of `c`, or -1 where it does not occur. */
  function LastIndex(s: string, c: char): (i: int)
    ensures -1 <= i < |s| && (i >= 0 ==> s[i] == c)
    ensures forall k :: i < k < |s| ==> s[k] != c
  {
    if s == [] then -1 else if s[|s| - 1] == c then |s| - 1 else LastIndex(s[..|s| - 1], c)
  }

  lemma SplitsAtFirst(head: string, rest: string)
    ensures var i := FirstIndex(Join(head, rest), ':');
      && i < |Join(head, rest)|
      && (':' !in head ==> Join(head, rest)[..i] == head && Join(head, rest)[i + 1..] == rest)
  {
    var s := Join(head, rest);
    assert s[|head|] == ':';
    if ':' !in head {
      assert forall k :: 0 <= k < |head| ==> s[k] == head[k];
    }
  }

  lemma SplitsAtLast(head: string, rest: string)
    ensures var i := LastIndex(Join(head, rest), ':');
      && i >= 0
      && (':' !in rest ==> Join(head, rest)[..i] == head && Join(head, rest)[i + 1..] == rest)
  {
    var s := Join(head, rest);
    assert s[|head|] == ':';
    if ':' !in rest {
      assert forall k :: |head| < k < |s| ==> s[k] == rest[k - |head| - 1];
    }
  }

  lemma Rejoins(s: string, i: nat)
    requires i < |s| && s[i] == ':'
    ensures Join(s[..i], s[i + 1..]) == s
  {}
}
