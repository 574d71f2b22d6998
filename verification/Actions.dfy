/** Scheduled actions of a scenario run, and the order in which the runner must take them. */
module Actions {

  const MAX_INT64: int := 0x7FFF_FFFF_FFFF_FFFF
  const MAX_SCHEDULED_ACTIONS: nat := 20000

  /** What running an action does to the set of simulated commands awaiting an outcome.
      Outcome covers reject, fail, timeout and complete, which always release the command. */
  datatype Effect = Plain | Acknowledge(command: string) | Outcome(command: string)

  datatype Action = Action(atMs: int, seqNo: nat, name: string, effect: Effect)

  /** An action requested while the run is under way, relative to virtual time. */
  datatype DynamicAction = DynamicAction(delayMs: int, name: string, effect: Effect)

  predicate Before(left: Action, right: Action)
  {
    if left.atMs != right.atMs then left.atMs < right.atMs else left.seqNo < right.seqNo
  }

  ghost predicate Ordered(s: seq<Action>)
  {
    forall i, j | 0 <= i < j < |s| :: Before(s[i], s[j])
  }

  ghost predicate DistinctNumbers(s: seq<Action>)
  {
    forall i, j | 0 <= i < j < |s| :: s[i].seqNo != s[j].seqNo
  }

  function Numbers(s: seq<Action>): (r: set<nat>)
    ensures forall i | 0 <= i < |s| :: s[i].seqNo in r
  {
    set a | a in s :: a.seqNo
  }

  lemma NumbersConcat(s: seq<Action>, t: seq<Action>)
    ensures Numbers(s + t) == Numbers(s) + Numbers(t)
  {
    forall n | n in Numbers(s) + Numbers(t) ensures n in Numbers(s + t) {
      var a :| (a in s || a in t) && a.seqNo == n;
      assert a in s + t;
    }
    forall n | n in Numbers(s + t) ensures n in Numbers(s) + Numbers(t) {
      var a :| a in s + t && a.seqNo == n;
      assert a in s || a in t;
    }
  }

  /** Removing one action of a list with distinct numbers removes exactly its number. */
  lemma NumbersTail(s: seq<Action>)
    requires |s| > 0 && DistinctNumbers(s)
    ensures s[0].seqNo !in Numbers(s[1..])
    ensures Numbers(s) == Numbers(s[1..]) + {s[0].seqNo}
  {
    assert s == [s[0]] + s[1..];
    NumbersConcat([s[0]], s[1..]);
    forall a | a in s[1..] ensures a.seqNo != s[0].seqNo {
      var i :| 0 <= i < |s| - 1 && s[1..][i] == a;
      assert s[i + 1] == a;
    }
  }

  lemma DistinctConcat(s: seq<Action>, t: seq<Action>)
    requires DistinctNumbers(s) && DistinctNumbers(t) && Numbers(s) !! Numbers(t)
    ensures DistinctNumbers(s + t)
  {
    forall i, j | 0 <= i < j < |s + t| ensures (s + t)[i].seqNo != (s + t)[j].seqNo {
      if i < |s| <= j {
        assert (s + t)[i].seqNo in Numbers(s) && (s + t)[j].seqNo in Numbers(t);
      }
    }
  }

  /** Places one action in an ordered list, as a stable sort of the list extended by it would. */
  function Insert(s: seq<Action>, a: Action): (r: seq<Action>)
    ensures |r| == |s| + 1
    ensures forall x :: x in r <==> x in s || x == a
  {
    if s == [] then [a]
    else if Before(a, s[0]) then [a] + s
    else
      var tail := Insert(s[1..], a);
      assert forall x :: x in s <==> x == s[0] || x in s[1..];
      [s[0]] + tail
  }

  function StableSort(s: seq<Action>): (r: seq<Action>)
    ensures |r| == |s|
    ensures forall x :: x in r <==> x in s
  {
    if s == [] then []
    else
      var last := |s| - 1;
      assert forall x :: x in s <==> x in s[..last] || x == s[last];
      Insert(StableSort(s[..last]), s[last])
  }

  lemma OrderedCons(head: Action, tail: seq<Action>)
    requires Ordered(tail) && forall x | x in tail :: Before(head, x)
    ensures Ordered([head] + tail)
  {
    forall i, j | 0 <= i < j < |tail| + 1 ensures Before(([head] + tail)[i], ([head] + tail)[j]) {
      if i == 0 {
        assert tail[j - 1] in tail;
      } else {
        assert Before(tail[i - 1], tail[j - 1]);
      }
    }
  }

  lemma OrderedHeadFirst(s: seq<Action>)
    requires Ordered(s) && |s| > 0
    ensures Ordered(s[1..]) && forall x | x in s[1..] :: Before(s[0], x)
  {
  }

  lemma {:induction false} InsertOrdered(s: seq<Action>, a: Action)
    requires Ordered(s) && forall x | x in s :: x.seqNo != a.seqNo
    ensures Ordered(Insert(s, a))
  {
    if s == [] {
    } else {
      OrderedHeadFirst(s);
      if Before(a, s[0]) {
        forall x | x in s ensures Before(a, x) {
        }
        OrderedCons(a, s);
      } else {
        assert Before(s[0], a);
        InsertOrdered(s[1..], a);
        OrderedCons(s[0], Insert(s[1..], a));
      }
    }
  }

  lemma {:induction false} InsertDistinct(s: seq<Action>, a: Action)
    requires DistinctNumbers(s) && forall x | x in s :: x.seqNo != a.seqNo
    ensures DistinctNumbers(Insert(s, a))
  {
    if s != [] && !Before(a, s[0]) {
      InsertDistinct(s[1..], a);
      forall x | x in Insert(s[1..], a) ensures s[0].seqNo != x.seqNo {
        assert s[0] in s;
      }
    }
  }

  /** Actions with distinct numbers have exactly one ordered arrangement, which sorting produces. */
  lemma {:induction false} StableSortOrders(s: seq<Action>)
    requires DistinctNumbers(s)
    ensures Ordered(StableSort(s)) && DistinctNumbers(StableSort(s))
    ensures Numbers(StableSort(s)) == Numbers(s)
  {
    if s != [] {
      var last := |s| - 1;
      StableSortOrders(s[..last]);
      forall x | x in s[..last] ensures x.seqNo != s[last].seqNo {
      }
      InsertOrdered(StableSort(s[..last]), s[last]);
      InsertDistinct(StableSort(s[..last]), s[last]);
    }
  }

  lemma {:induction false} OrderedArrangementUnique(s: seq<Action>, t: seq<Action>)
    requires Ordered(s) && Ordered(t)
    requires forall x :: x in s <==> x in t
    ensures s == t
  {
    assert |s| > 0 ==> s[0] in t;
    assert |t| > 0 ==> t[0] in s;
    if |s| > 0 {
      assert s[0] == t[0];
      forall x ensures x in s[1..] <==> x in t[1..] {
        assert x in s <==> x == s[0] || x in s[1..];
        assert x in t <==> x == t[0] || x in t[1..];
        if x in s[1..] {
          var i :| 0 <= i < |s| - 1 && s[1..][i] == x;
          assert Before(s[0], s[i + 1]);
        }
        if x in t[1..] {
          var i :| 0 <= i < |t| - 1 && t[1..][i] == x;
          assert Before(t[0], t[i + 1]);
        }
      }
      OrderedArrangementUnique(s[1..], t[1..]);
    }
  }
}
