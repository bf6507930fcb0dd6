/** The order of the scheduled alerts: by Unix time, then by token. */
module AlertOrdering {
  import opened AlertTypes

  datatype Key = Key(unix: int, token: string)

  function KeyOf(a: AlertView): Key {
    Key(a.content.timePoint.unix, a.data.token)
  }

  /** Byte-wise lexicographic order. */
  predicate StringLess(x: string, y: string) {
    if x == "" || y == "" then x == "" && y != ""
    else x[0] < y[0] || (x[0] == y[0] && StringLess(x[1..], y[1..]))
  }

  /** The comparator of the scheduled set. */
  predicate Before(x: Key, y: Key) {
    if x.unix == y.unix then StringLess(x.token, y.token) else x.unix < y.unix
  }

  lemma {:induction false} StringLessIrreflexive(x: string)
    ensures !StringLess(x, x)
  {
    if x != "" {
      StringLessIrreflexive(x[1..]);
    }
  }

  lemma {:induction false} StringLessTransitive(x: string, y: string, z: string)
    requires StringLess(x, y) && StringLess(y, z)
    ensures StringLess(x, z)
  {
    if x != "" && x[0] == y[0] && y[0] == z[0] {
      StringLessTransitive(x[1..], y[1..], z[1..]);
    }
  }

  lemma {:induction false} StringLessTotal(x: string, y: string)
    ensures StringLess(x, y) || x == y || StringLess(y, x)
  {
    if x != "" && y != "" && x[0] == y[0] {
      StringLessTotal(x[1..], y[1..]);
      assert x == [x[0]] + x[1..] && y == [y[0]] + y[1..];
    }
  }

  lemma BeforeIrreflexive(x: Key)
    ensures !Before(x, x)
  {
    StringLessIrreflexive(x.token);
  }

  lemma BeforeTransitive(x: Key, y: Key, z: Key)
    requires Before(x, y) && Before(y, z)
    ensures Before(x, z)
  {
    if x.unix == y.unix == z.unix {
      StringLessTransitive(x.token, y.token, z.token);
    }
  }

  lemma BeforeTotal(x: Key, y: Key)
    ensures Before(x, y) || x == y || Before(y, x)
  {
    StringLessTotal(x.token, y.token);
  }

  lemma BeforeAsymmetric(x: Key, y: Key)
    requires Before(x, y)
    ensures !Before(y, x) && x != y
  {
    BeforeIrreflexive(x);
    if Before(y, x) {
      BeforeTransitive(x, y, x);
    }
  }

  /** The first difference decides; a proper prefix is the smaller. */
  predicate Precedes(x: string, y: string) {
    exists i :: 0 <= i <= |x| && i < |y| && x[..i] == y[..i] && (i == |x| || x[i] < y[i])
  }

  lemma {:induction false} StringLessIff(x: string, y: string)
    ensures StringLess(x, y) <==> Precedes(x, y)
  {
    if x == "" || y == "" {
      if y != "" {
        assert x[..0] == y[..0];
      }
    } else if x[0] == y[0] {
      StringLessIff(x[1..], y[1..]);
      PrecedesTail(x, y);
    } else {
      assert x[..0] == y[..0];
      if Precedes(x, y) {
        var i :| 0 <= i <= |x| && i < |y| && x[..i] == y[..i] && (i == |x| || x[i] < y[i]);
        if i > 0 {
          SameHead(x, y, i);
        }
      }
    }
  }

  lemma SameHead(x: string, y: string, i: nat)
    requires 0 < i <= |x| && i <= |y| && x[..i] == y[..i]
    ensures x[0] == y[0]
  {
    assert x[0] == x[..i][0] && y[0] == y[..i][0];
  }

  lemma PrecedesTail(x: string, y: string)
    requires x != "" && y != "" && x[0] == y[0]
    ensures Precedes(x, y) <==> Precedes(x[1..], y[1..])
  {
    if Precedes(x, y) {
      var i :| 0 <= i <= |x| && i < |y| && x[..i] == y[..i] && (i == |x| || x[i] < y[i]);
      assert i > 0;
      assert x[1..][..i - 1] == x[..i][1..] == y[..i][1..] == y[1..][..i - 1];
    }
    if Precedes(x[1..], y[1..]) {
      var i :| 0 <= i <= |x[1..]| && i < |y[1..]| && x[1..][..i] == y[1..][..i]
               && (i == |x[1..]| || x[1..][i] < y[1..][i]);
      assert x[..i + 1] == [x[0]] + x[1..][..i] && y[..i + 1] == [y[0]] + y[1..][..i];
    }
  }

  /** Earlier, or at the same time with the smaller token. */
  predicate Earlier(x: Key, y: Key) {
    x.unix < y.unix || (x.unix == y.unix && Precedes(x.token, y.token))
  }

  /** The comparator puts the earlier first. */
  lemma BeforeIsEarlier(x: Key, y: Key)
    ensures Before(x, y) <==> Earlier(x, y)
  {
    StringLessIff(x.token, y.token);
  }
}
