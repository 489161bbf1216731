/** Python dictionaries as the training script uses them: a run of
    assignments `d[k] = v` (the last write per key wins) and the insertion
    order that iterating over `d.keys()` follows (a key keeps the place of its
    first insertion). */
module Tables {

  predicate NoDup(s: seq<string>) {
    forall i, j :: 0 <= i < j < |s| ==> s[i] != s[j]
  }

  /** `for i in range(len(ks)): m[ks[i]] = vs[i]` */
  function Assign<V>(m: map<string, V>, ks: seq<string>, vs: seq<V>): map<string, V>
    requires |ks| == |vs|
  {
    if |ks| == 0 then m
    else
      var n := |ks| - 1;
      Assign(m, ks[..n], vs[..n])[ks[n] := vs[n]]
  }

  /** The assigned dictionary holds the keys it held and the assigned ones. */
  lemma {:induction false} AssignKeys<V>(m: map<string, V>, ks: seq<string>, vs: seq<V>)
    requires |ks| == |vs|
    ensures forall k :: k in Assign(m, ks, vs) <==> k in m || k in ks
  {
    if |ks| > 0 {
      var n := |ks| - 1;
      AssignKeys(m, ks[..n], vs[..n]);
      assert forall k :: k in ks <==> k in ks[..n] || k == ks[n];
    }
  }

  /** After the assignments a key holds the value of its last assignment. */
  lemma {:induction false} LastWriteWins<V>(m: map<string, V>, ks: seq<string>, vs: seq<V>, i: nat)
    requires |ks| == |vs| && i < |ks|
    requires forall j :: i < j < |ks| ==> ks[j] != ks[i]
    ensures ks[i] in Assign(m, ks, vs) && Assign(m, ks, vs)[ks[i]] == vs[i]
  {
    var n := |ks| - 1;
    if i < n {
      LastWriteWins(m, ks[..n], vs[..n], i);
    }
  }

  /** A key that is never assigned keeps its presence and its value. */
  lemma {:induction false} Untouched<V>(m: map<string, V>, ks: seq<string>, vs: seq<V>, k: string)
    requires |ks| == |vs| && k !in ks
    ensures k in m ==> k in Assign(m, ks, vs) && Assign(m, ks, vs)[k] == m[k]
  {
    if |ks| > 0 {
      var n := |ks| - 1;
      assert k !in ks[..n];
      Untouched(m, ks[..n], vs[..n], k);
    }
  }

  /** One more assignment after a run of them. */
  lemma AssignLast<V>(m: map<string, V>, ks: seq<string>, vs: seq<V>, k: string, v: V)
    requires |ks| == |vs|
    ensures Assign(m, ks + [k], vs + [v]) == Assign(m, ks, vs)[k := v]
  {
    assert (ks + [k])[..|ks|] == ks;
    assert (vs + [v])[..|vs|] == vs;
  }

  /** Two runs of assignments one after the other are one run over the concatenation. */
  lemma {:induction false} AssignAppend<V>(m: map<string, V>, ks1: seq<string>, vs1: seq<V>, ks2: seq<string>, vs2: seq<V>)
    requires |ks1| == |vs1| && |ks2| == |vs2|
    ensures Assign(m, ks1 + ks2, vs1 + vs2) == Assign(Assign(m, ks1, vs1), ks2, vs2)
  {
    if |ks2| == 0 {
      assert ks1 + ks2 == ks1 && vs1 + vs2 == vs1;
    } else {
      var n := |ks2| - 1;
      var ks, vs := ks1 + ks2, vs1 + vs2;
      var last := |ks| - 1;
      AssignAppend(m, ks1, vs1, ks2[..n], vs2[..n]);
      assert ks[..last] == ks1 + ks2[..n] && ks[last] == ks2[n];
      assert vs[..last] == vs1 + vs2[..n] && vs[last] == vs2[n];
      calc {
        Assign(m, ks, vs);
        Assign(m, ks[..last], vs[..last])[ks[last] := vs[last]];
        Assign(m, ks1 + ks2[..n], vs1 + vs2[..n])[ks2[n] := vs2[n]];
        Assign(Assign(m, ks1, vs1), ks2[..n], vs2[..n])[ks2[n] := vs2[n]];
        Assign(Assign(m, ks1, vs1), ks2, vs2);
      }
    }
  }

  /** The key order of a dictionary after the assignments to the keys `ks`:
      a key new to the dictionary goes to the end, a known key stays put. */
  function Extend(order: seq<string>, ks: seq<string>): seq<string> {
    if |ks| == 0 then order
    else
      var n := |ks| - 1;
      var o := Extend(order, ks[..n]);
      if ks[n] in o then o else o + [ks[n]]
  }

  /** The new order holds the old keys and the assigned ones, each once if
      the old order did; it starts with the old order, and what follows is
      new to the dictionary. */
  lemma {:induction false} ExtendFacts(order: seq<string>, ks: seq<string>)
    ensures forall k :: k in Extend(order, ks) <==> k in order || k in ks
    ensures NoDup(order) ==> NoDup(Extend(order, ks))
    ensures |order| <= |Extend(order, ks)| && Extend(order, ks)[..|order|] == order
    ensures forall i :: |order| <= i < |Extend(order, ks)| ==> Extend(order, ks)[i] !in order
  {
    if |ks| > 0 {
      var n := |ks| - 1;
      ExtendFacts(order, ks[..n]);
      var o := Extend(order, ks[..n]);
      assert forall k :: k in ks <==> k in ks[..n] || k == ks[n];
      if ks[n] !in o {
        assert (o + [ks[n]])[..|order|] == o[..|order|];
      }
    }
  }

  /** One more key: appended if new, otherwise the order is unchanged. */
  lemma ExtendLast(order: seq<string>, ks: seq<string>, k: string)
    ensures Extend(order, ks + [k]) == (var o := Extend(order, ks); if k in o then o else o + [k])
  {
    assert (ks + [k])[..|ks|] == ks;
  }

  lemma {:induction false} ExtendAppend(order: seq<string>, ks1: seq<string>, ks2: seq<string>)
    ensures Extend(order, ks1 + ks2) == Extend(Extend(order, ks1), ks2)
  {
    if |ks2| == 0 {
      assert ks1 + ks2 == ks1;
    } else {
      var n := |ks2| - 1;
      var init, k := ks2[..n], ks2[n];
      ExtendAppend(order, ks1, init);
      assert ks1 + ks2 == (ks1 + init) + [k];
      assert ks2 == init + [k];
      ExtendLast(order, ks1 + init, k);
      ExtendLast(Extend(order, ks1), init, k);
    }
  }

  /** The position of the first occurrence of `k` in `ks`. */
  function FirstIndex(ks: seq<string>, k: string): (i: nat)
    requires k in ks
    ensures i < |ks| && ks[i] == k
    ensures forall j :: 0 <= j < i ==> ks[j] != k
  {
    if ks[0] == k then 0 else 1 + FirstIndex(ks[1..], k)
  }

  lemma FirstIndexInPrefix(ks: seq<string>, n: nat, k: string)
    requires n <= |ks| && k in ks[..n]
    ensures FirstIndex(ks, k) == FirstIndex(ks[..n], k)
  {
    var i, j := FirstIndex(ks, k), FirstIndex(ks[..n], k);
    assert ks[j] == k;
    assert ks[i] == ks[j];
  }

  /** Keys new to the dictionary appear in the order of their first assignment. */
  lemma {:induction false} FirstInsertionOrder(order: seq<string>, ks: seq<string>, i: nat, j: nat)
    requires |order| <= i < j < |Extend(order, ks)|
    ensures Extend(order, ks)[i] in ks && Extend(order, ks)[j] in ks
    ensures FirstIndex(ks, Extend(order, ks)[i]) < FirstIndex(ks, Extend(order, ks)[j])
  {
    var r := Extend(order, ks);
    var n := |ks| - 1;
    var o := Extend(order, ks[..n]);
    ExtendFacts(order, ks);
    ExtendFacts(order, ks[..n]);
    if j < |o| {
      FirstInsertionOrder(order, ks[..n], i, j);
      FirstIndexInPrefix(ks, n, r[i]);
      FirstIndexInPrefix(ks, n, r[j]);
    } else {
      assert r == o + [ks[n]] && r[j] == ks[n];
      assert r[i] == o[i] && o[i] !in order;
      assert r[i] in ks[..n];
      FirstIndexInPrefix(ks, n, r[i]);
      assert ks[n] !in ks[..n];
      assert forall m :: 0 <= m < n ==> ks[..n][m] == ks[m];
      assert forall m :: 0 <= m < n ==> ks[m] != ks[n];
    }
  }

  /** A sequence without repetitions has as many distinct elements as entries. */
  lemma {:induction false} DistinctCount(s: seq<string>)
    requires NoDup(s)
    ensures |set k | k in s| == |s|
  {
    if |s| > 0 {
      var n := |s| - 1;
      DistinctCount(s[..n]);
      assert (set k | k in s) == (set k | k in s[..n]) + {s[n]};
      assert s[n] !in s[..n];
    }
  }
}
