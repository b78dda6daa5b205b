/**
  The panel's action stack (`actionStack.arrangedSubviews`): every added button,
  enabled or not, in the order of the `add` calls. Only enabled buttons are
  entered in `btns`, so the k-th entry of `btns` is the k-th ENABLED entry of
  the stack, which lies at `StackIndex(stack, k)`.
 */
module ActionStack {

  /** One button of the stack: its title and whether it has an action. */
  datatype StackEntry = StackEntry(title: string, enabled: bool)

  /** Number of enabled buttons in the stack. */
  function EnabledCount(s: seq<StackEntry>): (n: nat)
    ensures n <= |s|
  {
    if s == [] then 0
    else EnabledCount(s[..|s| - 1]) + (if s[|s| - 1].enabled then 1 else 0)
  }

  /** Stack position of the k-th enabled button (counting from 0). */
  function StackIndex(s: seq<StackEntry>, k: nat): (p: nat)
    requires k < EnabledCount(s)
    ensures p < |s| && s[p].enabled
    // exactly k enabled buttons come before it
    ensures EnabledCount(s[..p]) == k
  {
    var last := |s| - 1;
    assert s[..last][..last] == s[..last];
    if s[last].enabled && k == EnabledCount(s[..last]) then last
    else
      var p := StackIndex(s[..last], k);
      assert s[..last][..p] == s[..p];
      p
  }

  /** Appending a button to the stack counts it when it is enabled. */
  lemma EnabledCountAppend(s: seq<StackEntry>, e: StackEntry)
    ensures EnabledCount(s + [e]) == EnabledCount(s) + (if e.enabled then 1 else 0)
  {
    assert (s + [e])[..|s|] == s;
  }

  /**
    Appending a button moves no existing enabled button, and an appended
    enabled button becomes the next one, at the end of the stack.
   */
  lemma StackIndexAppend(s: seq<StackEntry>, e: StackEntry)
    ensures forall k: nat :: k < EnabledCount(s) ==> StackIndex(s + [e], k) == StackIndex(s, k)
    ensures e.enabled ==> StackIndex(s + [e], EnabledCount(s)) == |s|
  {
    EnabledCountAppend(s, e);
    assert (s + [e])[..|s|] == s;
  }

  /** A stack is all enabled exactly when every button in it counts. */
  lemma {:induction false} AllEnabled(s: seq<StackEntry>)
    ensures EnabledCount(s) == |s| <==> forall j :: 0 <= j < |s| ==> s[j].enabled
  {
    if s != [] {
      var last := |s| - 1;
      AllEnabled(s[..last]);
      assert forall j :: 0 <= j < last ==> s[..last][j] == s[j];
    }
  }

  /**
    The k-th enabled button sits at stack position k or later, and at
    position exactly k only when no disabled button precedes it.
   */
  lemma StackIndexVersusTag(s: seq<StackEntry>, k: nat)
    requires k < EnabledCount(s)
    ensures k <= StackIndex(s, k)
    ensures StackIndex(s, k) == k <==> forall j :: 0 <= j < StackIndex(s, k) ==> s[j].enabled
  {
    var p := StackIndex(s, k);
    AllEnabled(s[..p]);
    assert forall j :: 0 <= j < p ==> s[..p][j] == s[j];
  }

  /**
    Renaming one button changes neither which buttons are enabled nor where
    the enabled ones sit.
   */
  lemma {:induction false} RetitlePreservesIndex(s: seq<StackEntry>, p: nat, title: string)
    requires p < |s|
    ensures EnabledCount(s[p := StackEntry(title, s[p].enabled)]) == EnabledCount(s)
    ensures forall k: nat :: k < EnabledCount(s) ==>
      StackIndex(s[p := StackEntry(title, s[p].enabled)], k) == StackIndex(s, k)
  {
    var t := s[p := StackEntry(title, s[p].enabled)];
    var last := |s| - 1;
    if p < last {
      assert t[..last] == s[..last][p := StackEntry(title, s[p].enabled)];
      RetitlePreservesIndex(s[..last], p, title);
    } else {
      assert t[..last] == s[..last];
    }
  }

  /** Distinct enabled buttons sit at distinct stack positions. */
  lemma StackIndexInjective(s: seq<StackEntry>, j: nat, k: nat)
    requires j < EnabledCount(s) && k < EnabledCount(s) && j != k
    ensures StackIndex(s, j) != StackIndex(s, k)
  {
  }
}
