/** The order in which a dispatcher takes the records of a route
    (internal/gateway/im_ingress_dispatch.go:734-765). */
module ControlPriority {

  function Filtered<T>(items: seq<T>, urgent: T -> bool, keep: bool): seq<T> {
    if items == [] then []
    else
      var last := items[|items| - 1];
      Filtered(items[..|items| - 1], urgent, keep) + if urgent(last) == keep then [last] else []
  }

  /** Up to four urgent records, the others, then the urgent records beyond four;
      each part in the order of the listing. */
  function Prioritized<T>(items: seq<T>, urgent: T -> bool): seq<T> {
    var first := Filtered(items, urgent, true);
    var cut := if |first| <= 4 then |first| else 4;
    first[..cut] + Filtered(items, urgent, false) + first[cut..]
  }

  lemma FilteredPush<T>(items: seq<T>, x: T, urgent: T -> bool)
    ensures Filtered(items + [x], urgent, true) == if urgent(x) then Filtered(items, urgent, true) + [x]
              else Filtered(items, urgent, true)
    ensures Filtered(items + [x], urgent, false) == if urgent(x) then Filtered(items, urgent, false)
              else Filtered(items, urgent, false) + [x]
  {
    assert (items + [x])[..|items|] == items;
  }

  method PrioritizeControls<T>(items: seq<T>, urgent: T -> bool) returns (r: seq<T>)
    ensures r == Prioritized(items, urgent)
  {
    hide Filtered;
    var priority: seq<T> := [];
    var rest: seq<T> := [];
    var deferred: seq<T> := [];
    NoneFiltered(urgent);
    assert items[..0] == [];
    for i := 0 to |items|
      invariant priority + deferred == Filtered(items[..i], urgent, true) && rest == Filtered(items[..i], urgent, false)
      invariant |priority| <= 4 && (|priority| < 4 ==> deferred == [])
    {
      var x := items[i];
      FilteredPush(items[..i], x, urgent);
      assert items[..i + 1] == items[..i] + [x];
      assert priority + deferred + [x] == priority + (deferred + [x]);
      assert deferred == [] ==> priority + [x] + deferred == priority + deferred + [x];
      if urgent(x) {
        if |priority| < 4 {
          priority := priority + [x];
        } else {
          deferred := deferred + [x];
        }
      } else {
        rest := rest + [x];
      }
    }
    assert items[..|items|] == items;
    r := priority + rest + deferred;
    assert (priority + deferred)[..|priority|] == priority && (priority + deferred)[|priority|..] == deferred;
  }

  lemma NoneFiltered<T>(urgent: T -> bool)
    ensures Filtered([], urgent, true) == [] && Filtered([], urgent, false) == []
  {
  }

  lemma {:induction false} FilteredSplit<T>(items: seq<T>, urgent: T -> bool)
    ensures multiset(Filtered(items, urgent, true)) + multiset(Filtered(items, urgent, false)) == multiset(items)
    decreases |items|
  {
    hide Filtered;
    if items == [] {
      NoneFiltered(urgent);
    } else {
      var front, last := items[..|items| - 1], items[|items| - 1];
      FilteredSplit(front, urgent);
      FilteredPush(front, last, urgent);
      assert items == front + [last];
      MovedOver(multiset(Filtered(front, urgent, true)), multiset(Filtered(front, urgent, false)), last);
    }
  }

  lemma MovedOver<T>(a: multiset<T>, b: multiset<T>, x: T)
    ensures (a + multiset{x}) + b == (a + b) + multiset{x} && a + (b + multiset{x}) == (a + b) + multiset{x}
  {
  }

  lemma {:induction false} FilteredAll<T>(items: seq<T>, urgent: T -> bool, keep: bool)
    ensures forall i :: 0 <= i < |Filtered(items, urgent, keep)| ==> urgent(Filtered(items, urgent, keep)[i]) == keep
    decreases |items|
  {
    if items != [] {
      FilteredAll(items[..|items| - 1], urgent, keep);
    }
  }

  lemma {:induction false} FilteredConcat<T>(a: seq<T>, b: seq<T>, urgent: T -> bool, keep: bool)
    ensures Filtered(a + b, urgent, keep) == Filtered(a, urgent, keep) + Filtered(b, urgent, keep)
    decreases |b|
  {
    if b == [] {
      assert a + b == a;
    } else {
      FilteredConcat(a, b[..|b| - 1], urgent, keep);
      assert (a + b)[..|a + b| - 1] == a + b[..|b| - 1];
    }
  }

  lemma {:induction false} FilteredSame<T>(items: seq<T>, urgent: T -> bool, keep: bool)
    requires forall i :: 0 <= i < |items| ==> urgent(items[i]) == keep
    ensures Filtered(items, urgent, keep) == items && Filtered(items, urgent, !keep) == []
    decreases |items|
  {
    if items != [] {
      FilteredSame(items[..|items| - 1], urgent, keep);
    }
  }

  /** Nothing is dropped or repeated. */
  lemma PrioritizedIsPermutation<T>(items: seq<T>, urgent: T -> bool)
    ensures multiset(Prioritized(items, urgent)) == multiset(items)
  {
    hide Filtered;
    var first, rest := Filtered(items, urgent, true), Filtered(items, urgent, false);
    var cut := if |first| <= 4 then |first| else 4;
    assert first == first[..cut] + first[cut..];
    assert multiset(first) == multiset(first[..cut]) + multiset(first[cut..]);
    FilteredSplit(items, urgent);
  }

  /** The ordinary records keep their order among themselves, and so do the urgent
      ones; an urgent record that is not among the first four urgent ones comes
      after every ordinary record. */
  lemma PrioritizedIsFair<T>(items: seq<T>, urgent: T -> bool)
    ensures var p := Prioritized(items, urgent);
            && Filtered(p, urgent, false) == Filtered(items, urgent, false)
            && Filtered(p, urgent, true) == Filtered(items, urgent, true)
            && (forall i, j :: 0 <= i < j < |p| && urgent(p[i]) && !urgent(p[j]) ==> i < 4)
  {
    hide Filtered;
    var first, rest := Filtered(items, urgent, true), Filtered(items, urgent, false);
    var cut := if |first| <= 4 then |first| else 4;
    FilteredAll(items, urgent, true);
    FilteredAll(items, urgent, false);
    assert first == first[..cut] + first[cut..];
    FilteredSame(first[..cut], urgent, true);
    FilteredSame(first[cut..], urgent, true);
    FilteredSame(rest, urgent, false);
    FilteredConcat(first[..cut] + rest, first[cut..], urgent, true);
    FilteredConcat(first[..cut] + rest, first[cut..], urgent, false);
    FilteredConcat(first[..cut], rest, urgent, true);
    FilteredConcat(first[..cut], rest, urgent, false);
  }
}
