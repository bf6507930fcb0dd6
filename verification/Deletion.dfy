/** Bulk deletion is a filter on the tokens. */
module SchedulerDeletion {
  import opened AlertTypes
  import opened AlertRecords
  import opened AlertQueue
  import opened SchedulerModel
  import opened SchedulerConsistency
  import opened SchedulerPopulation
  import opened SchedulerQuiet

  /** No alert in memory is listed twice; unknown tokens may be. */
  ghost predicate NoneTwice(s: SchedulerView, tokens: seq<string>) {
    forall i, j :: 0 <= i < j < |tokens| && Knows(s, tokens[i]) ==> tokens[i] != tokens[j]
  }

  ghost predicate DistinctTokens(alerts: seq<AlertView>) {
    forall i, j :: 0 <= i < j < |alerts| ==> alerts[i].data.token != alerts[j].data.token
  }

  lemma NamedToken(s: SchedulerView, tokens: seq<string>, token: string)
    requires Distinct(s.queue)
    ensures !NoToken(Named(s, tokens), token) <==> Knows(s, token) && token in tokens
  {
    NamedAlerts(s, tokens);
    if IsActiveToken(s, token) && token in tokens {
      assert s.active.value in Named(s, tokens);
    } else if Knows(s, token) && token in tokens {
      var x :| x in s.queue && x.data.token == token;
      assert x in Named(s, tokens);
    }
  }

  /** The list of named alerts repeats a token exactly when the tokens repeat a known one. */
  lemma {:induction false} NamedDistinctIff(s: SchedulerView, tokens: seq<string>)
    requires Distinct(s.queue)
    ensures DistinctTokens(Named(s, tokens)) <==> NoneTwice(s, tokens)
  {
    if tokens != [] {
      var n := |tokens| - 1;
      var init, last := tokens[..n], tokens[n];
      NamedDistinctIff(s, init);
      NamedToken(s, init, last);
      QueuedProperties(s, last);
      var list := Named(s, init);
      assert tokens == init + [last];
      assert NoneTwice(s, tokens) <==> NoneTwice(s, init) && !(Knows(s, last) && last in init);
      if Knows(s, last) {
        var a := if IsActiveToken(s, last) then s.active.value else Queued(s, last).value;
        assert Named(s, tokens) == list + [a] && a.data.token == last;
        assert DistinctTokens(list + [a]) <==> DistinctTokens(list) && NoToken(list, last) by {
          AppendDistinct(list, a);
        }
      } else {
        assert Named(s, tokens) == list;
      }
    }
  }

  lemma AppendDistinct(list: seq<AlertView>, a: AlertView)
    ensures DistinctTokens(list + [a]) <==> DistinctTokens(list) && NoToken(list, a.data.token)
  {
    var more := list + [a];
    if DistinctTokens(more) {
      forall i, j | 0 <= i < j < |list|
        ensures list[i].data.token != list[j].data.token
      {
        assert more[i] == list[i] && more[j] == list[j];
      }
      forall x | x in list
        ensures x.data.token != a.data.token
      {
        var i :| 0 <= i < |list| && list[i] == x;
        assert more[i] == x && more[|list|] == a;
      }
    }
  }

  lemma NamedEmptyIff(s: SchedulerView, tokens: seq<string>)
    requires Distinct(s.queue)
    ensures Named(s, tokens) == [] <==> forall t :: t in tokens ==> !Knows(s, t)
  {
    if Named(s, tokens) == [] {
      forall t | t in tokens
        ensures !Knows(s, t)
      {
        NamedToken(s, tokens, t);
      }
    } else {
      HasMember(Named(s, tokens));
      var x :| x in Named(s, tokens);
      NamedToken(s, tokens, x.data.token);
    }
  }

  lemma NamedOwnRows(s: SchedulerView, tokens: seq<string>, parse: TimeParser)
    requires Consistent(s, parse)
    ensures forall x :: x in Named(s, tokens) ==> Owns(s.rows, x) && HasToken(s.rows, x.data.token)
  {
    NamedAlerts(s, tokens);
    forall x | x in Named(s, tokens)
      ensures Owns(s.rows, x) && HasToken(s.rows, x.data.token)
    {
    }
  }

  /** A bulk deletion succeeds exactly when it names nothing in memory, or the disk serves it and no alert in
      memory is listed twice. Unknown tokens and the order of the list do not matter. */
  lemma DeleteAlertsSucceedsIff(s: SchedulerView, tokens: seq<string>, env: Env, parse: TimeParser)
    requires Consistent(s, parse)
    ensures DeleteAlertsOk(s, tokens, env) <==>
              (forall t :: t in tokens ==> !Knows(s, t)) || (env.bulkDisk && NoneTwice(s, tokens))
  {
    var list := Named(s, tokens);
    NamedEmptyIff(s, tokens);
    NamedDistinctIff(s, tokens);
    NamedOwnRows(s, tokens, parse);
    assert forall i :: 0 <= i < |list| ==> list[i] in list;
    EraseAllSucceedsIff(s.rows, list, parse);
    assert EraseAll(s.rows, list).Some? <==> DistinctTokens(list);
  }

  /** Exactly the queued alerts that are not listed, in order. */
  ghost predicate QueueWithout(s: SchedulerView, tokens: seq<string>, q: seq<AlertView>) {
    Sorted(q) && forall x :: x in q <==> x in s.queue && x.data.token !in tokens
  }

  /** Exactly the rows but for those of listed alerts in memory. */
  ghost predicate RowsWithout(s: SchedulerView, tokens: seq<string>, rows: Rows) {
    && (forall id :: id in rows <==> id in s.rows && !(s.rows[id].token in tokens && Knows(s, s.rows[id].token)))
    && (forall id :: id in rows ==> rows[id] == s.rows[id])
  }

  /** A successful bulk deletion leaves exactly the queued alerts and the rows of memory that are not listed,
      and the active alert unless it is listed; a failed one changes nothing at all. */
  lemma DeleteAlertsFilters(s: SchedulerView, tokens: seq<string>, env: Env, parse: TimeParser)
    requires Consistent(s, parse)
    ensures var t := DeleteAlerts(s, tokens, env);
            && (!DeleteAlertsOk(s, tokens, env) ==> t == s)
            && (DeleteAlertsOk(s, tokens, env) ==>
                  && QueueWithout(s, tokens, t.queue)
                  && RowsWithout(s, tokens, t.rows)
                  && t.active == (if s.active.Some? && s.active.value.data.token in tokens then None else s.active))
  {
    if DeleteAlertsOk(s, tokens, env) {
      var list := Named(s, tokens);
      NamedAlerts(s, tokens);
      BulkErasedRows(s, tokens, env, parse);
      var u := s.(rows := BulkErased(s.rows, list, env.bulkDisk),
                  active := if s.active.Some? && s.active.value.data.token in tokens then None else s.active);
      DeleteAlertsQueue(s, tokens, env, parse);
      RemoveAllFrame(u, list);
      SetTimerFrame(RemoveAll(u, list), env);
      forall id | id in s.rows
        ensures id in u.rows <==> !(s.rows[id].token in tokens && Knows(s, s.rows[id].token))
      {
        var token := s.rows[id].token;
        NamedToken(s, tokens, token);
        forall x | x in list
          ensures x.data.dbId == id <==> x.data.token == token
        {
          assert Owns(s.rows, x);
        }
      }
    }
  }

  lemma WithoutIsUnique(s: SchedulerView, tokens: seq<string>, tokens': seq<string>,
                        q: seq<AlertView>, q': seq<AlertView>, rows: Rows, rows': Rows)
    requires forall t :: Knows(s, t) ==> (t in tokens <==> t in tokens')
    requires QueueWithout(s, tokens, q) && QueueWithout(s, tokens', q')
    requires RowsWithout(s, tokens, rows) && RowsWithout(s, tokens', rows')
    ensures q == q' && rows == rows'
  {
    assert forall x :: x in s.queue ==> Knows(s, x.data.token);
    SortedUnique(q, q');
    assert forall id :: id in rows <==> id in rows';
    assert forall id :: id in rows ==> rows[id] == rows'[id];
    assert rows == rows';
  }

  /** The outcome depends on the listed tokens alone: permuting a list or dropping unknown tokens from it
      changes neither the queue nor the rows. */
  lemma DeleteAlertsIgnoresOrder(s: SchedulerView, tokens: seq<string>, tokens': seq<string>, env: Env,
                                 parse: TimeParser)
    requires Consistent(s, parse)
    requires DeleteAlertsOk(s, tokens, env) && DeleteAlertsOk(s, tokens', env)
    requires forall t :: Knows(s, t) ==> (t in tokens <==> t in tokens')
    ensures var t, t' := DeleteAlerts(s, tokens, env), DeleteAlerts(s, tokens', env);
            t.queue == t'.queue && t.rows == t'.rows && t.active == t'.active
  {
    DeleteAlertsFilters(s, tokens, env, parse);
    DeleteAlertsFilters(s, tokens', env, parse);
    var t, t' := DeleteAlerts(s, tokens, env), DeleteAlerts(s, tokens', env);
    WithoutIsUnique(s, tokens, tokens', t.queue, t'.queue, t.rows, t'.rows);
    if s.active.Some? {
      assert Knows(s, s.active.value.data.token);
    }
  }
}
