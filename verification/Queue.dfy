/** The ordered set of scheduled alerts, as the sequence of its elements. Insertion and removal go by the
    comparator: an element equivalent to one already present is not inserted. */
module AlertQueue {
  import opened AlertTypes
  import opened AlertOrdering

  predicate Less(a: AlertView, b: AlertView) {
    Before(KeyOf(a), KeyOf(b))
  }

  ghost predicate Sorted(q: seq<AlertView>) {
    forall i, j :: 0 <= i < j < |q| ==> Less(q[i], q[j])
  }

  /** The first position whose element is not less than a. */
  function Position(q: seq<AlertView>, a: AlertView): (p: nat)
    ensures p <= |q|
    ensures forall i :: 0 <= i < p ==> Less(q[i], a)
    ensures p < |q| ==> !Less(q[p], a)
  {
    if q == [] || !Less(q[0], a) then 0 else 1 + Position(q[1..], a)
  }

  predicate Contains(q: seq<AlertView>, a: AlertView) {
    var p := Position(q, a);
    p < |q| && !Less(a, q[p])
  }

  function Insert(q: seq<AlertView>, a: AlertView): seq<AlertView> {
    if Contains(q, a) then q else q[..Position(q, a)] + [a] + q[Position(q, a)..]
  }

  function Remove(q: seq<AlertView>, a: AlertView): seq<AlertView> {
    if Contains(q, a) then q[..Position(q, a)] + q[Position(q, a) + 1..] else q
  }

  /** The index of the first alert with the token, and the length when there is none. */
  function Find(q: seq<AlertView>, token: string): (i: nat)
    ensures i <= |q|
    ensures i < |q| ==> q[i].data.token == token
    ensures forall j :: 0 <= j < i ==> q[j].data.token != token
  {
    if q == [] || q[0].data.token == token then 0 else 1 + Find(q[1..], token)
  }

  ghost predicate NoToken(q: seq<AlertView>, token: string) {
    forall x :: x in q ==> x.data.token != token
  }

  /** One alert for each token. */
  ghost predicate Distinct(q: seq<AlertView>) {
    forall x, y :: x in q && y in q && x.data.token == y.data.token ==> x == y
  }

  // ---------------------------------------------------------------- properties

  lemma SameKeyUnless(a: AlertView, b: AlertView)
    ensures !Less(a, b) && !Less(b, a) ==> KeyOf(a) == KeyOf(b)
    ensures KeyOf(a) == KeyOf(b) ==> !Less(a, b)
  {
    BeforeTotal(KeyOf(a), KeyOf(b));
    BeforeIrreflexive(KeyOf(a));
  }

  /** Lookup by comparator finds exactly the elements with the same key. */
  lemma ContainsKey(q: seq<AlertView>, a: AlertView)
    requires Sorted(q)
    ensures Contains(q, a) <==> exists x :: x in q && KeyOf(x) == KeyOf(a)
    ensures Contains(q, a) ==> KeyOf(q[Position(q, a)]) == KeyOf(a)
  {
    var p := Position(q, a);
    if p < |q| {
      SameKeyUnless(a, q[p]);
    }
    if x :| x in q && KeyOf(x) == KeyOf(a) {
      var i :| 0 <= i < |q| && q[i] == x;
      SameKeyUnless(x, a);
      assert p <= i;
      SameKeyUnless(a, x);
    }
  }

  /** Insertion keeps the order. */
  lemma InsertSorted(q: seq<AlertView>, a: AlertView)
    requires Sorted(q)
    ensures Sorted(Insert(q, a))
  {
    var p := Position(q, a);
    if !Contains(q, a) {
      forall j | p <= j < |q|
        ensures Less(a, q[j])
      {
        if p < j {
          BeforeTransitive(KeyOf(a), KeyOf(q[p]), KeyOf(q[j]));
        }
      }
    }
  }

  lemma RemoveSorted(q: seq<AlertView>, a: AlertView)
    requires Sorted(q)
    ensures Sorted(Remove(q, a))
  {
  }

  lemma InsertMembers(q: seq<AlertView>, a: AlertView)
    ensures forall x :: x in q ==> x in Insert(q, a)
    ensures forall x :: x in Insert(q, a) ==> x in q || x == a
    ensures !Contains(q, a) ==> a in Insert(q, a)
  {
    var p := Position(q, a);
    assert q == q[..p] + q[p..];
  }

  /** An alert whose token is new is always inserted. */
  lemma InsertNew(q: seq<AlertView>, a: AlertView)
    requires Sorted(q) && NoToken(q, a.data.token)
    ensures Sorted(Insert(q, a))
    ensures forall x :: x in Insert(q, a) <==> x in q || x == a
    ensures |Insert(q, a)| == |q| + 1
    ensures Distinct(q) ==> Distinct(Insert(q, a))
  {
    ContainsKey(q, a);
    InsertSorted(q, a);
    InsertMembers(q, a);
  }

  /** Elements of a sorted queue with the same key are the same element. */
  lemma SortedKeys(q: seq<AlertView>, x: AlertView, y: AlertView)
    requires Sorted(q) && x in q && y in q && KeyOf(x) == KeyOf(y)
    ensures x == y
  {
    var i :| 0 <= i < |q| && q[i] == x;
    var j :| 0 <= j < |q| && q[j] == y;
    SameKeyUnless(x, y);
    SameKeyUnless(y, x);
  }

  /** The comparator finds an element of a sorted queue where it is. */
  lemma SortedPosition(q: seq<AlertView>, i: nat)
    requires Sorted(q) && i < |q|
    ensures Contains(q, q[i]) && Position(q, q[i]) == i
  {
    var p := Position(q, q[i]);
    assert q[i] in q;
    ContainsKey(q, q[i]);
    SameKeyUnless(q[i], q[p]);
    SameKeyUnless(q[p], q[i]);
  }

  /** Removing an alert of the queue takes out that alert and no other. */
  lemma RemoveMember(q: seq<AlertView>, a: AlertView, b: AlertView)
    requires Sorted(q) && a in q && KeyOf(b) == KeyOf(a)
    ensures Sorted(Remove(q, b))
    ensures forall x :: x in Remove(q, b) <==> x in q && x != a
    ensures |Remove(q, b)| == |q| - 1
    ensures Distinct(q) ==> NoToken(Remove(q, b), a.data.token) && Distinct(Remove(q, b))
  {
    ContainsKey(q, b);
    var p := Position(q, b);
    SortedKeys(q, a, q[p]);
    assert q == q[..p] + [q[p]] + q[p + 1..];
    forall i | 0 <= i < |q| && q[i] == a
      ensures i == p
    {
      SameKeyUnless(q[i], q[p]);
      SameKeyUnless(q[p], q[i]);
    }
    RemoveSorted(q, b);
  }

  lemma RemoveAbsent(q: seq<AlertView>, a: AlertView)
    requires Sorted(q) && NoToken(q, a.data.token)
    ensures Remove(q, a) == q
  {
    ContainsKey(q, a);
  }

  lemma FindIff(q: seq<AlertView>, token: string)
    ensures Find(q, token) < |q| <==> !NoToken(q, token)
  {
  }

  lemma HeadIsLeast(q: seq<AlertView>, x: AlertView)
    requires Sorted(q) && x in q
    ensures x == q[0] || Less(q[0], x)
  {
  }

  lemma HasMember(q: seq<AlertView>)
    requires q != []
    ensures exists x :: x in q
  {
    assert q[0] in q;
  }

  /** A sorted queue is determined by its elements. */
  lemma {:induction false} SortedUnique(p: seq<AlertView>, q: seq<AlertView>)
    requires Sorted(p) && Sorted(q)
    requires forall x :: x in p <==> x in q
    ensures p == q
  {
    if p == [] {
      if q != [] {
        HasMember(q);
      }
    } else {
      assert p[0] in q;
      assert q[0] in p;
      HeadIsLeast(q, p[0]);
      HeadIsLeast(p, q[0]);
      if p[0] != q[0] {
        BeforeAsymmetric(KeyOf(p[0]), KeyOf(q[0]));
      }
      forall x
        ensures x in p[1..] <==> x in q[1..]
      {
        HeadOnce(p, x);
        HeadOnce(q, x);
      }
      SortedUnique(p[1..], q[1..]);
      assert p == [p[0]] + p[1..] && q == [q[0]] + q[1..];
    }
  }

  lemma HeadOnce(q: seq<AlertView>, x: AlertView)
    requires Sorted(q) && q != []
    ensures x in q[1..] <==> x in q && x != q[0]
  {
    if x in q[1..] {
      var i :| 0 <= i < |q[1..]| && q[1..][i] == x;
      assert Less(q[0], q[i + 1]);
      SameKeyUnless(q[0], x);
    }
    assert q == [q[0]] + q[1..];
  }

  /** Removing what was just inserted restores the queue. */
  lemma InsertRemove(q: seq<AlertView>, a: AlertView)
    requires Sorted(q) && NoToken(q, a.data.token)
    ensures Remove(Insert(q, a), a) == q
  {
    InsertNew(q, a);
    RemoveMember(Insert(q, a), a, a);
    SortedUnique(Remove(Insert(q, a), a), q);
  }

  /** An alert may be replaced, in place, by one with the same key. */
  lemma ReplaceSorted(q: seq<AlertView>, i: nat, a: AlertView)
    requires Sorted(q) && i < |q| && KeyOf(a) == KeyOf(q[i])
    ensures Sorted(q[i := a])
    ensures forall x :: x in q[i := a] <==> x == a || (x in q && x != q[i])
    ensures Distinct(q) ==> Distinct(q[i := a])
  {
    forall x | x in q && x != q[i]
      ensures x in q[i := a]
    {
      var j :| 0 <= j < |q| && q[j] == x;
      assert q[i := a][j] == x;
    }
    assert q[i := a][i] == a;
    forall j | 0 <= j < |q| && j != i
      ensures q[j] != q[i]
    {
      SameKeyUnless(q[i], q[j]);
      SameKeyUnless(q[j], q[i]);
    }
  }

  /** Removal looks at nothing but the key. */
  lemma {:induction false} PositionSameKey(q: seq<AlertView>, a: AlertView, b: AlertView)
    requires KeyOf(a) == KeyOf(b)
    ensures Position(q, a) == Position(q, b)
  {
    if q != [] && Less(q[0], a) {
      PositionSameKey(q[1..], a, b);
    }
  }

  lemma RemoveSameKey(q: seq<AlertView>, a: AlertView, b: AlertView)
    requires KeyOf(a) == KeyOf(b)
    ensures Remove(q, a) == Remove(q, b)
  {
    PositionSameKey(q, a, b);
  }

  /** In a sorted queue time runs forwards, and at one time the tokens ascend. */
  lemma SortedByTime(q: seq<AlertView>, i: nat, j: nat)
    requires Sorted(q) && i < j < |q|
    ensures q[i].content.timePoint.unix <= q[j].content.timePoint.unix
    ensures q[i].content.timePoint.unix == q[j].content.timePoint.unix ==>
              Precedes(q[i].data.token, q[j].data.token)
  {
    assert Less(q[i], q[j]);
    BeforeIsEarlier(KeyOf(q[i]), KeyOf(q[j]));
  }

  /** The head of a sorted queue is an earliest alert, and of the earliest the one with the least token. */
  lemma HeadIsEarliest(q: seq<AlertView>, x: AlertView)
    requires Sorted(q) && x in q && x != q[0]
    ensures Earlier(KeyOf(q[0]), KeyOf(x))
  {
    HeadIsLeast(q, x);
    BeforeIsEarlier(KeyOf(q[0]), KeyOf(x));
  }

  /** An alert is inserted behind exactly those that are earlier. */
  lemma InsertedByTime(q: seq<AlertView>, a: AlertView)
    requires Sorted(q) && NoToken(q, a.data.token)
    ensures var p := Position(q, a);
            && Insert(q, a) == q[..p] + [a] + q[p..]
            && (forall i :: 0 <= i < p ==> Earlier(KeyOf(q[i]), KeyOf(a)))
            && (forall i :: p <= i < |q| ==> Earlier(KeyOf(a), KeyOf(q[i])))
  {
    var p := Position(q, a);
    ContainsKey(q, a);
    forall i | 0 <= i < p
      ensures Earlier(KeyOf(q[i]), KeyOf(a))
    {
      assert Less(q[i], a);
      BeforeIsEarlier(KeyOf(q[i]), KeyOf(a));
    }
    forall i | p <= i < |q|
      ensures Earlier(KeyOf(a), KeyOf(q[i]))
    {
      assert q[i] in q;
      BeforeTotal(KeyOf(q[p]), KeyOf(a));
      if p < i {
        BeforeTransitive(KeyOf(a), KeyOf(q[p]), KeyOf(q[i]));
      }
      BeforeIsEarlier(KeyOf(a), KeyOf(q[i]));
    }
  }
}
