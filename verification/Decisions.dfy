/** When the hiring state machine hires, fires, or waits: what a decision starts,
    how long it waits for its connectors, and what a restart comes to. */
module Decisions {
  import opened Sequences
  import opened SupplierList
  import opened Hiring

  /** Distinct suppliers that are not to be dismissed. */
  function Remaining(list: seq<Id>, toDismiss: seq<Id>): set<Id> {
    set id | id in list && id != "" && id !in toDismiss
  }

  /** A decision hires exactly if a position is empty, or fewer than the desired
      number of suppliers would remain. Else it fires those to be dismissed, if
      there are any; else nothing is to be done. */
  lemma DecisionExact(m: Machine, desired: nat, toDismiss: seq<Id>)
    requires m.state == Decision
    ensures var r := Step(m, desired, MadeDecision(toDismiss));
      if "" in m.suppliers || |Remaining(m.suppliers, toDismiss)| < desired then
        r == m.(state := HireOne, dismissed := toDismiss, searches := m.searches + 1)
      else if toDismiss == [] then r == m.(state := Ready)
      else
        && r.state == FireMany && r.dismissed == toDismiss && r.searches == m.searches && r.results == []
        && (Distinct(m.suppliers) && Stripped(m.suppliers) ==>
              && |r.suppliers| == Min(desired, |m.suppliers|)
              && forall i :: 0 <= i < |r.suppliers| ==>
                   r.suppliers[i] == if m.suppliers[i] in toDismiss then "" else m.suppliers[i])
  {
    hide Remove, Distinct, Stripped;
    if "" !in m.suppliers {
      assert Elements(m.suppliers) - Elements(toDismiss) == Remaining(m.suppliers, toDismiss);
    }
    if Distinct(m.suppliers) && Stripped(m.suppliers) {
      RemoveAt(m.suppliers, toDismiss, desired);
    }
  }

  function Min(a: nat, b: nat): nat {
    if a < b then a else b
  }

  /** From a decision to the end of the hiring that it starts: with K suppliers
      that stay in the first D positions, every fresh feed of at least
      max(1, D - K) leaves these positions filled, if none was repeated; each of
      the due searches is started, and no more. */
  lemma DecisionPhase(m: Machine, desired: nat, toDismiss: seq<Id>, ids: seq<Id>)
    requires m.state == Decision && Stripped(m.suppliers) && "" !in toDismiss
    requires "" in m.suppliers || |Remaining(m.suppliers, toDismiss)| < desired
    requires NoDup(ids) && forall id :: id in ids ==> Fresh(m.suppliers, toDismiss, id)
    ensures var r := Run(m, desired, [MadeDecision(toDismiss)] + Hired(ids));
      var due := Max(1, desired - |Healthy(m.suppliers, toDismiss, desired)|);
      && (r.state == HireOne <==> RepeatCount(m.suppliers, toDismiss, desired) >= 2 || |ids| < due)
      && (r.state != HireOne ==>
            && r.state == (if toDismiss == [] then Ready else FireMany)
            && r.searches == m.searches + due
            && (Filled(r.suppliers, toDismiss, desired) <==> HealthyOnce(m.suppliers, toDismiss, desired)))
  {
    hide Strip, Stripped, LastHole, Filled, HealthyOnce, Healthy, RepeatCount, Fresh, Step;
    DecisionExact(m, desired, toDismiss);
    var m1, es := Step(m, desired, MadeDecision(toDismiss)), [MadeDecision(toDismiss)] + Hired(ids);
    assert es[1..] == Hired(ids);
    HirePhase(m1, desired, ids);
  }

  /** The finder gives up: those to be dismissed are fired all the same. */
  lemma SearchFails(m: Machine, desired: nat)
    requires m.state == HireOne
    ensures var r := Step(m, desired, SearchFailed);
      if m.dismissed == [] then r == m.(state := Ready)
      else
        && r.state == FireMany && r.dismissed == m.dismissed && r.searches == m.searches && r.results == []
        && (Distinct(m.suppliers) && Stripped(m.suppliers) ==>
              && |r.suppliers| == Min(desired, |m.suppliers|)
              && forall i :: 0 <= i < |r.suppliers| ==>
                   r.suppliers[i] == if m.suppliers[i] in m.dismissed then "" else m.suppliers[i])
  {
    hide Remove, Distinct, Stripped;
    if Distinct(m.suppliers) && Stripped(m.suppliers) {
      RemoveAt(m.suppliers, m.dismissed, desired);
    }
  }

  /** The finder brings one who is a supplier already: nothing changes, and no
      other search is started. */
  lemma PresentIgnored(m: Machine, desired: nat, id: Id)
    requires m.state == HireOne && id in m.suppliers
    ensures Step(m, desired, SupplierConnected(id)) == m
  {
  }

  // ----- restarts

  /** A restart that comes while the machine is busy is only noted. */
  lemma RestartNoted(m: Machine, desired: nat, changed: bool)
    requires m.state != Ready
    ensures Step(m, desired, Restart(changed)) == m.(needRestart := true)
  {
  }

  lemma {:induction false} CountAll(list: seq<Id>)
    ensures Count(list, "") <= |list|
    ensures Count(list, "") < |list| <==> exists id :: id in list && id != ""
  {
    if list != [] {
      var rest, last := list[..|list|-1], list[|list|-1];
      assert list == rest + [last];
      CountAll(rest);
      if id :| id in list && id != "" {
        assert id in rest || id == last;
      }
      if last != "" {
        assert last in list;
      } else if id :| id in rest && id != "" {
        assert id in list;
      }
    }
  }

  lemma {:induction false} ConnectableNames(list: seq<Id>)
    ensures forall id :: id in Connectable(list) <==> id in list && id != ""
    ensures |Connectable(list)| + Count(list, "") == |list|
  {
    if list != [] {
      var rest := list[..|list|-1];
      assert list == rest + [list[|list|-1]];
      ConnectableNames(rest);
    }
  }

  /** A restart of a ready machine, and the event that follows one noted, connect
      the suppliers first if the settings have changed and there is any, and
      await exactly those; else they lead to a decision. Without one noted the
      event does nothing. */
  lemma RestartExact(m: Machine, desired: nat, e: Event)
    requires m.state == Ready && (e.Restart? || e.Instant?)
    ensures var r := Step(m, desired, e);
      if e.Instant? && !m.needRestart then r == m
      else
        && !r.needRestart && r.suppliers == m.suppliers && r.dismissed == m.dismissed && r.searches == m.searches
        && (r.state == Connecting <==> e.configChanged && exists id :: id in m.suppliers && id != "")
        && (r.state == Connecting ==> forall id :: id in r.awaited <==> id in m.suppliers && id != "")
        && (r.state != Connecting ==> r.state == Decision)
  {
    CountAll(m.suppliers);
    ConnectableNames(m.suppliers);
  }

  // ----- waiting for connectors

  function Answers(es: seq<Event>): nat {
    if es == [] then 0 else Answers(es[..|es|-1]) + if es[|es|-1].ConnectorAnswered? then 1 else 0
  }

  /** Only answers of connectors awaited, each once, and the events they post. */
  ghost predicate Awaiting(awaited: seq<Id>, es: seq<Event>) {
    && (forall e :: e in es ==> (e.ConnectorAnswered? && e.id in awaited) || e.SupplierStateChanged?)
    && forall i, j :: 0 <= i < j < |es| && es[i].ConnectorAnswered? && es[j].ConnectorAnswered? ==> es[i].id != es[j].id
  }

  lemma {:induction false} AnswersNext(es: seq<Event>, k: nat)
    requires 0 < k <= |es|
    ensures Answers(es[..k]) == Answers(es[1..][..k-1]) + if es[0].ConnectorAnswered? then 1 else 0
    decreases k
  {
    if k > 1 {
      AnswersNext(es, k - 1);
      assert es[..k][..k-1] == es[..k-1] && es[1..][..k-1][..k-2] == es[1..][..k-2];
      assert es[..k][k-1] == es[1..][..k-1][k-2];
    } else {
      assert es[..1][..0] == [] && es[1..][..0] == [];
    }
  }

  lemma {:induction false} DecidingIgnores(m: Machine, desired: nat, es: seq<Event>)
    requires m.state == Decision && forall e :: e in es ==> e.ConnectorAnswered? || e.SupplierStateChanged?
    ensures Run(m, desired, es) == m
    decreases |es|
  {
    if es != [] {
      assert es[0] in es;
      DecidingIgnores(m, desired, es[1..]);
    }
  }

  lemma AwaitingNext(awaited: seq<Id>, es: seq<Event>)
    requires NoDup(awaited) && Awaiting(awaited, es) && es != []
    ensures es[0].SupplierStateChanged? ==> Awaiting(awaited, es[1..])
    ensures es[0].ConnectorAnswered? ==>
      var rest := RemoveFirst(awaited, es[0].id);
      |rest| == |awaited| - 1 && NoDup(rest) && Awaiting(rest, es[1..])
  {
    assert es[0] in es;
    if es[0].ConnectorAnswered? {
      RemoveIsWithout(awaited, es[0].id);
      WithoutNoDup(awaited, {es[0].id});
      assert forall i :: 0 <= i < |es[1..]| ==> es[1..][i] == es[i+1];
    }
  }

  /** A posted event comes when all have answered. */
  ghost predicate Ends(es: seq<Event>, awaited: nat) {
    exists k :: EndsAt(es, awaited, k)
  }

  predicate EndsAt(es: seq<Event>, awaited: nat, k: int) {
    0 <= k < |es| && es[k].SupplierStateChanged? && Answers(es[..k]) >= awaited
  }

  lemma EndsNext(es: seq<Event>, awaited: nat)
    requires es != []
    ensures es[0].ConnectorAnswered? && awaited > 0 ==> Ends(es, awaited) == Ends(es[1..], awaited - 1)
    ensures es[0].SupplierStateChanged? && awaited > 0 ==> Ends(es, awaited) == Ends(es[1..], awaited)
    ensures es[0].SupplierStateChanged? && awaited == 0 ==> Ends(es, awaited)
  {
    hide Answers;
    NoAnswers();
    assert es[..0] == [];
    forall k | 0 < k < |es|
      ensures Answers(es[..k]) == Answers(es[1..][..k-1]) + (if es[0].ConnectorAnswered? then 1 else 0)
      ensures es[k] == es[1..][k-1]
    {
      AnswersNext(es, k);
    }
    var rest := if es[0].ConnectorAnswered? && awaited > 0 then awaited - 1 else awaited;
    if k :| EndsAt(es, awaited, k) && k > 0 {
      assert EndsAt(es[1..], rest, k - 1);
    }
    if k :| EndsAt(es[1..], rest, k) && awaited > 0 {
      assert EndsAt(es, awaited, k + 1);
    }
    if es[0].SupplierStateChanged? && awaited == 0 {
      assert EndsAt(es, awaited, 0);
    }
  }

  lemma NoAnswers()
    ensures Answers([]) == 0
  {
  }

  /** The wait for connectors ends exactly with the first posted event that comes
      after all of those awaited have answered; or when the time runs out. */
  lemma {:induction false} ConnectPhase(m: Machine, desired: nat, es: seq<Event>)
    requires m.state == Connecting && NoDup(m.awaited) && Awaiting(m.awaited, es)
    ensures var r := Run(m, desired, es);
      && r.state == (if Ends(es, |m.awaited|) then Decision else Connecting)
      && r.suppliers == m.suppliers && r.searches == m.searches
    ensures forall absent :: Step(m, desired, Timer(absent)) == m.(state := Decision)
    decreases |es|
  {
    hide NoDup, Awaiting, Ends, RemoveFirst;
    if es == [] {
      NothingEnds(|m.awaited|);
    } else {
      var m1 := Step(m, desired, es[0]);
      AwaitingNext(m.awaited, es);
      AwaitingKind(m.awaited, es);
      EndsNext(es, |m.awaited|);
      if m1.state == Connecting {
        ConnectPhase(m1, desired, es[1..]);
      } else {
        DecidingIgnores(m1, desired, es[1..]);
      }
    }
  }

  lemma NothingEnds(awaited: nat)
    ensures !Ends([], awaited)
  {
  }

  lemma AwaitingKind(awaited: seq<Id>, es: seq<Event>)
    requires Awaiting(awaited, es)
    ensures forall e :: e in es ==> (e.ConnectorAnswered? && e.id in awaited) || e.SupplierStateChanged?
  {
  }

  /** When the time of a firing phase runs out, the machine is ready again. */
  lemma FireTimesOut(m: Machine, desired: nat, absent: set<Id>)
    requires m.state == FireMany
    ensures var r := Step(m, desired, Timer(absent));
      r.state == Ready && r.dismissed == [] && r.suppliers == m.suppliers && m.closed <= r.closed
  {
  }
}
