/**
 * Wiring of the logging config map into an App's `spec.extraConfigs` list,
 * the loop shared by the Cluster API flavours and the logging-wiring
 * resource: add the entry once, or take it out again.
 */
module ExtraConfigs {
  import opened Kube

  /** The entry that points the observability bundle at its logging config map. */
  function WiredEntry(name: string, namespace: string): (e: ExtraConfig)
    ensures e.kind == "configMap" && e.priority == 25
    ensures e.name == name && e.namespace == namespace
  {
    ExtraConfig("configMap", name, namespace, 25)
  }

  /** Reference definition of wiring: the list with `e` appended unless already present. */
  function Wired(list: seq<ExtraConfig>, e: ExtraConfig): seq<ExtraConfig>
  {
    if e in list then list else list + [e]
  }

  /** Reference definition of unwiring: the list without any copy of `e`, order kept. */
  function Without(list: seq<ExtraConfig>, e: ExtraConfig): seq<ExtraConfig>
  {
    if |list| == 0 then []
    else (if list[0] == e then [] else [list[0]]) + Without(list[1..], e)
  }

  /** Wiring holds the entry exactly once when it was absent, and keeps other entries in order. */
  lemma WiredAddsOnce(list: seq<ExtraConfig>, e: ExtraConfig)
    ensures e in Wired(list, e)
    ensures e !in list ==> Wired(list, e)[..|list|] == list && multiset(Wired(list, e))[e] == 1
    ensures e in list ==> Wired(list, e) == list
  {
    if e !in list {
      assert multiset(list)[e] == 0;
      assert (list + [e])[..|list|] == list;
    }
  }

  /** Wiring twice is wiring once. */
  lemma WiredIdempotent(list: seq<ExtraConfig>, e: ExtraConfig)
    ensures Wired(Wired(list, e), e) == Wired(list, e)
  {
    assert e in Wired(list, e) by { WiredAddsOnce(list, e); }
  }

  lemma {:induction false} WithoutConcat(a: seq<ExtraConfig>, b: seq<ExtraConfig>, e: ExtraConfig)
    ensures Without(a + b, e) == Without(a, e) + Without(b, e)
  {
    if |a| == 0 {
      assert a + b == b;
    } else {
      WithoutConcat(a[1..], b, e);
      var head := if a[0] == e then [] else [a[0]];
      assert (a + b)[0] == a[0] && (a + b)[1..] == a[1..] + b;
      assert Without(a + b, e) == head + Without(a[1..] + b, e);
      assert head + (Without(a[1..], e) + Without(b, e)) == (head + Without(a[1..], e)) + Without(b, e);
    }
  }

  /** A list without `e` is left as it is. */
  lemma {:induction false} WithoutNoMatch(list: seq<ExtraConfig>, e: ExtraConfig)
    requires e !in list
    ensures Without(list, e) == list
  {
    if |list| > 0 {
      WithoutNoMatch(list[1..], e);
      assert [list[0]] + list[1..] == list;
    }
  }

  /** Unwiring leaves no copy of `e` and keeps every other entry. */
  lemma {:induction false} WithoutRemovesAll(list: seq<ExtraConfig>, e: ExtraConfig)
    ensures e !in Without(list, e)
    ensures forall x :: x != e ==> multiset(Without(list, e))[x] == multiset(list)[x]
  {
    if |list| > 0 {
      WithoutRemovesAll(list[1..], e);
      assert list == [list[0]] + list[1..];
    }
  }

  /** A single matching entry at `k` is cut out and everything else stays in order. */
  lemma RemovesSingle(list: seq<ExtraConfig>, e: ExtraConfig, k: nat)
    requires k < |list| && list[k] == e && e !in list[..k] && e !in list[k + 1..]
    ensures Without(list, e) == list[..k] + list[k + 1..]
  {
    assert list == list[..k] + [e] + list[k + 1..];
    WithoutConcat(list[..k] + [e], list[k + 1..], e);
    WithoutConcat(list[..k], [e], e);
    WithoutNoMatch(list[..k], e);
    WithoutNoMatch(list[k + 1..], e);
  }

  /** Unwiring undoes a wiring of a list that did not hold the entry. */
  lemma UnwireAfterWire(list: seq<ExtraConfig>, e: ExtraConfig)
    requires e !in list
    ensures Without(Wired(list, e), e) == list
  {
    WithoutConcat(list, [e], e);
    WithoutNoMatch(list, e);
  }

  /** `wireLogging`: scan for the entry with a found flag, append it to the copy when absent. */
  method Wire(current: App, e: ExtraConfig) returns (desired: App)
    ensures desired == current.(extraConfigs := Wired(current.extraConfigs, e))
  {
    desired := current;
    var contains := false;
    for i := 0 to |current.extraConfigs|
      invariant contains <==> e in current.extraConfigs[..i]
    {
      assert current.extraConfigs[..i + 1] == current.extraConfigs[..i] + [current.extraConfigs[i]];
      if current.extraConfigs[i] == e {
        contains := true;
      }
    }
    assert current.extraConfigs[..|current.extraConfigs|] == current.extraConfigs;
    if !contains {
      desired := desired.(extraConfigs := desired.extraConfigs + [e]);
    }
  }

  /** Cutting a matching entry out changes nothing that `Without` sees, and keeps the prefix before it. */
  lemma {:induction false} CutMatch(list: seq<ExtraConfig>, e: ExtraConfig, i: nat)
    requires i < |list| && list[i] == e
    ensures Without(list[..i] + list[i + 1..], e) == Without(list, e)
    ensures (list[..i] + list[i + 1..])[..i] == list[..i]
  {
    var front, back := list[..i], list[i + 1..];
    assert list == front + [e] + back;
    WithoutConcat(front + [e], back, e);
    WithoutConcat(front, [e], e);
    assert Without([e], e) == [] + Without([], e) == [];
    WithoutConcat(front, back, e);
    assert (front + back)[..i] == front;
  }

  /** `unwireLogging` with the intended splice: cut every matching entry out of the copy. */
  method Unwire(current: App, e: ExtraConfig) returns (desired: App)
    ensures desired == current.(extraConfigs := Without(current.extraConfigs, e))
  {
    var list := current.extraConfigs;
    var i := 0;
    while i < |list|
      invariant i <= |list|
      invariant Without(list, e) == Without(current.extraConfigs, e)
      invariant e !in list[..i]
      decreases |list| - i
    {
      if list[i] == e {
        CutMatch(list, e, i);
        list := list[..i] + list[i + 1..];
      } else {
        assert list[..i + 1] == list[..i] + [list[i]];
        i := i + 1;
      }
    }
    assert list[..i] == list;
    WithoutNoMatch(list, e);
    desired := current.(extraConfigs := list);
  }

  /**
   * The Go loop as written: it ranges over the original slice (length `n`)
   * while each `append(s[:i], s[i+1:]...)` shifts the shared backing array
   * left in place (its last cell keeps its old value), and the last splice
   * becomes the result.
   */
  function SpliceRun(backing: seq<ExtraConfig>, n: nat, i: nat, desired: seq<ExtraConfig>, e: ExtraConfig): seq<ExtraConfig>
    requires |backing| == n && i <= n
    decreases n - i
  {
    if i == n then desired
    else if backing[i] == e then
      var shifted := backing[..i] + backing[i + 1..] + [backing[n - 1]];
      SpliceRun(shifted, n, i + 1, shifted[..n - 1], e)
    else SpliceRun(backing, n, i + 1, desired, e)
  }

  function UnwireAsWritten(list: seq<ExtraConfig>, e: ExtraConfig): seq<ExtraConfig>
  {
    SpliceRun(list, |list|, 0, list, e)
  }

  /** Two adjacent copies of the wired entry: the Go splice leaves one of them behind. */
  lemma UnwireAsWrittenKeepsDuplicate(e: ExtraConfig)
    ensures UnwireAsWritten([e, e], e) == [e]
    ensures Without([e, e], e) == []
  {
    var s1 := [e, e][..0] + [e, e][1..] + [e];
    assert s1 == [e, e];
    assert s1[..1] == [e];
    var s2 := s1[..1] + s1[2..] + [s1[1]];
    assert s2 == [e, e];
    assert [e, e][1..] == [e] && [e][1..] == [];
    assert Without([e], e) == [] + Without([], e) == [];
    assert Without([e, e], e) == [] + Without([e], e);
  }

  lemma {:induction false} SpliceRunNoMatch(backing: seq<ExtraConfig>, n: nat, i: nat, desired: seq<ExtraConfig>, e: ExtraConfig)
    requires |backing| == n && i <= n && e !in backing[i..]
    ensures SpliceRun(backing, n, i, desired, e) == desired
    decreases n - i
  {
    if i < n {
      assert backing[i] in backing[i..];
      assert backing[i + 1..] == backing[i..][1..];
      SpliceRunNoMatch(backing, n, i + 1, desired, e);
    }
  }

  lemma {:induction false} SpliceRunSkip(backing: seq<ExtraConfig>, n: nat, i: nat, k: nat, desired: seq<ExtraConfig>, e: ExtraConfig)
    requires |backing| == n && i <= k <= n && e !in backing[i..k]
    ensures SpliceRun(backing, n, i, desired, e) == SpliceRun(backing, n, k, desired, e)
    decreases k - i
  {
    if i < k {
      assert backing[i] == backing[i..k][0];
      assert backing[i + 1..k] == backing[i..k][1..];
      SpliceRunSkip(backing, n, i + 1, k, desired, e);
    }
  }

  /** The one splice at `k` of a list whose only copy of `e` sits at `k` is the final result. */
  lemma SpliceRunAtUnique(list: seq<ExtraConfig>, e: ExtraConfig, k: nat)
    requires k < |list| && list[k] == e && e !in list[k + 1..]
    ensures SpliceRun(list, |list|, k, list, e) == list[..k] + list[k + 1..]
  {
    var n := |list|;
    var shifted := list[..k] + list[k + 1..] + [list[n - 1]];
    assert |shifted| == n;
    if k < n - 1 {
      assert shifted[k + 1..] == list[k + 2..] + [list[n - 1]];
      assert list[k + 2..] == list[k + 1..][1..];
      assert list[n - 1] == list[k + 1..][n - 2 - k];
    } else {
      assert shifted[k + 1..] == [];
    }
    SpliceRunNoMatch(shifted, n, k + 1, shifted[..n - 1], e);
    assert shifted[..n - 1] == list[..k] + list[k + 1..];
  }

  /** With at most one copy of the entry, the Go splice and the intended unwiring agree. */
  lemma UnwireAsWrittenAgreesWhenUnique(list: seq<ExtraConfig>, e: ExtraConfig)
    requires multiset(list)[e] <= 1
    ensures UnwireAsWritten(list, e) == Without(list, e)
  {
    var n := |list|;
    if e !in list {
      SpliceRunNoMatch(list, n, 0, list, e);
      WithoutNoMatch(list, e);
    } else {
      var k :| 0 <= k < n && list[k] == e;
      UniqueCopy(list, e, k);
      SpliceRunSkip(list, n, 0, k, list, e);
      SpliceRunAtUnique(list, e, k);
      RemovesSingle(list, e, k);
    }
  }

  lemma UniqueCopy(list: seq<ExtraConfig>, e: ExtraConfig, k: nat)
    requires k < |list| && list[k] == e && multiset(list)[e] <= 1
    ensures e !in list[..k] && e !in list[k + 1..]
  {
    assert list == list[..k] + [e] + list[k + 1..];
    assert multiset(list) == multiset(list[..k]) + multiset{e} + multiset(list[k + 1..]);
  }
}
