/** The fire_hire state machine and the list of suppliers in the contacts
    database as one object whose actions update both in place. */
module FireHires {
  import opened Sequences
  import opened SupplierList
  import opened Hiring

  class FireHire {
    var state: State
    var needRestart: bool
    var dismissList: seq<Id>
    var suppliers: seq<Id>
    var searches: nat
    var connectList: seq<Id>
    var dismissResults: seq<Id>

    // The connectors told to shut down.
    var closed: seq<Id>

    ghost function Abs(): Machine
      reads this
    {
      Machine(state, needRestart, dismissList, suppliers, searches, connectList, dismissResults, closed)
    }

    constructor (stored: seq<Id>)
      ensures Abs() == Machine(Ready, false, [], StripAll(stored), 0, [], [], [])
    {
      state, needRestart, dismissList := Ready, false, [];
      suppliers := StripAll(stored);
      searches, connectList, dismissResults, closed := 0, [], [], [];
    }

    /** The transition table, and the callback by which a connector answers.
        Conditions are evaluated before the actions run. */
    method A(e: Event, desired: nat)
      modifies this
      ensures Abs() == Step(old(Abs()), desired, e)
    {
      hide Remove, Substitute, StillNeeded, MoreNeeded, CloseAll, Connectable, RemoveFirst;
      match state
      case Ready =>
        if e.Restart? || (e.Instant? && needRestart) {
          needRestart := false;
          if e.configChanged && SomeSuppliers(suppliers) {
            state := Connecting;
            DoConnectSuppliers();
          } else {
            state := Decision;
          }
        }
      case Decision =>
        if e.Restart? {
          needRestart := true;
        } else if e.MadeDecision? {
          DecisionMade(e.toDismiss, desired);
        }
      case HireOne =>
        if e.Restart? {
          needRestart := true;
        } else if e.SupplierConnected? {
          HireConnected(e.id, desired);
        } else if e.SearchFailed? {
          if |dismissList| == 0 {
            state := Ready;
          } else {
            state := FireMany;
            dismissResults := [];
            DoRemoveSuppliers(desired);
          }
        }
      case FireMany =>
        if e.Restart? {
          needRestart := true;
        } else if e.Timer? {
          state := Ready;
          DoCloseConnectors(e.absent);
          dismissList := [];
        } else if e.ConnectorAnswered? {
          dismissResults := dismissResults + [e.id];
        } else if e.SupplierStateChanged? {
          var allDismissed := |dismissList| == |dismissResults|;
          if allDismissed {
            state := Ready;
          }
          DoCloseConnector(e.id, e.known);
          if allDismissed && e.known {
            dismissList := [];
          }
        }
      case Connecting =>
        if e.Restart? {
          needRestart := true;
        } else if e.ConnectorAnswered? {
          RemoveAwaited(e.id);
        } else if e.Timer? || (e.SupplierStateChanged? && |connectList| == 0) {
          state := Decision;
        }
    }

    method DecisionMade(toDismiss: seq<Id>, desired: nat)
      requires state == Decision
      modifies `state, `dismissList, `suppliers, `searches, `dismissResults
      ensures Abs() == StepDecision(old(Abs()), desired, MadeDecision(toDismiss))
    {
      hide Remove, MoreNeeded;
      var moreNeeded := IsMoreNeeded(toDismiss, desired);
      if !moreNeeded && |toDismiss| > 0 {
        state := FireMany;
        dismissList := toDismiss;
        DoRemoveSuppliers(desired);
        dismissResults := [];
      } else if !moreNeeded {
        state := Ready;
      } else {
        state := HireOne;
        dismissList := toDismiss;
        searches := searches + 1;
      }
    }

    method HireConnected(id: Id, desired: nat)
      requires state == HireOne
      modifies `state, `dismissList, `suppliers, `searches, `dismissResults
      ensures Abs() == StepHireOne(old(Abs()), desired, SupplierConnected(id))
    {
      hide Substitute, StillNeeded;
      var stillNeeded := IsStillNeeded(id, desired);
      if stillNeeded {
        var raised := DoSubstituteSupplier(id);
        if !raised {
          searches := searches + 1;
        }
      } else {
        state := if |dismissList| > 0 then FireMany else Ready;
        var raised := DoSubstituteSupplier(id);
        if |dismissList| > 0 {
          dismissResults := [];
        }
      }
    }

    method IsMoreNeeded(dismissed: seq<Id>, desired: nat) returns (r: bool)
      ensures r == MoreNeeded(suppliers, dismissed, desired)
    {
      if "" in suppliers {
        return true;
      }
      var s := Elements(suppliers);
      s := s - Elements(dismissed);
      r := |s| < desired;
    }

    method IsStillNeeded(id: Id, desired: nat) returns (r: bool)
      ensures r == StillNeeded(suppliers, dismissList, desired, id)
      ensures id in suppliers ==> r
    {
      if id in suppliers {
        return true;
      }
      var needed := Take(suppliers, desired);
      var empty := Count(needed, "");
      var s := Elements(needed);
      s := s + {id};
      s := s - Elements(dismissList);
      r := |s| - empty < desired;
    }

    method DoSubstituteSupplier(id: Id) returns (raised: bool)
      modifies `suppliers
      ensures raised == (id in old(suppliers))
      ensures suppliers == if raised then old(suppliers) else Substitute(old(suppliers), dismissList, id)
    {
      hide Strip;
      if id in suppliers {
        return true;
      }
      var position := -1;
      var i := 0;
      while i < |suppliers| && position < 0
        invariant i <= |suppliers|
        invariant position < 0 ==> FirstOpen(suppliers, dismissList, i) == FirstOpen(suppliers, dismissList)
        invariant position >= 0 ==> position < |suppliers| && position == FirstOpen(suppliers, dismissList)
      {
        if Strip(suppliers[i]) == "" || suppliers[i] in dismissList {
          position := i;
        }
        i := i + 1;
      }
      var list := if position < 0 then suppliers + [id] else suppliers[position := id];
      SetSuppliers(list);
      raised := false;
    }

    /** set_suppliers strips every name. */
    method SetSuppliers(list: seq<Id>)
      modifies `suppliers
      ensures suppliers == StripAll(list)
      ensures Stripped(suppliers) && (Stripped(list) ==> suppliers == list)
    {
      StripAllStripped(list);
      suppliers := StripAll(list);
    }

    method DoRemoveSuppliers(desired: nat)
      modifies `suppliers
      ensures suppliers == Remove(old(suppliers), dismissList, desired)
    {
      var k := 0;
      while k < |dismissList|
        invariant k <= |dismissList|
        invariant suppliers == BlankAll(old(suppliers), dismissList[..k])
      {
        assert dismissList[..k+1][..k] == dismissList[..k];
        if dismissList[k] in suppliers {
          var position := Index(suppliers, dismissList[k]);
          BlankFirst(suppliers, dismissList[k], position);
          suppliers := suppliers[position := ""];
        } else {
          BlankAbsent(suppliers, dismissList[k]);
        }
        k := k + 1;
      }
      assert dismissList[..k] == dismissList;
      SetSuppliers(Take(suppliers, desired));
    }

    /** Raises, with the list shortened, if there is no connector. */
    method DoCloseConnector(id: Id, known: bool)
      modifies `dismissList, `closed
      ensures dismissList == RemoveFirst(old(dismissList), id)
      ensures closed == old(closed) + if known then [id] else []
    {
      if id in dismissList {
        dismissList := RemoveFirst(dismissList, id);
      } else {
        RemoveFirstAbsent(dismissList, id);
      }
      if known {
        closed := closed + [id];
      }
    }

    /** for id in self.dismiss_list, which the body shortens. */
    method DoCloseConnectors(absent: set<Id>)
      modifies `dismissList, `closed
      ensures closed == old(closed) + CloseAll(old(dismissList), 0, absent)
    {
      hide RemoveFirst;
      var i := 0;
      while i < |dismissList|
        invariant closed + CloseAll(dismissList, i, absent) == old(closed) + CloseAll(old(dismissList), 0, absent)
        decreases |dismissList| - i
      {
        var id := dismissList[i];
        DoCloseConnector(id, id !in absent);
        i := i + 1;
      }
    }

    /** self.connect_list.remove */
    method RemoveAwaited(id: Id)
      modifies `connectList
      ensures connectList == RemoveFirst(old(connectList), id)
    {
      if id in connectList {
        connectList := RemoveFirst(connectList, id);
      } else {
        RemoveFirstAbsent(connectList, id);
      }
    }

    method DoConnectSuppliers()
      modifies `connectList
      ensures connectList == Connectable(suppliers)
    {
      connectList := [];
      for i := 0 to |suppliers|
        invariant connectList == Connectable(suppliers[..i])
      {
        assert suppliers[..i+1][..i] == suppliers[..i];
        if suppliers[i] != "" {
          connectList := connectList + [suppliers[i]];
        }
      }
      assert suppliers[..|suppliers|] == suppliers;
    }
  }

  /** list.index */
  method Index(list: seq<Id>, id: Id) returns (k: nat)
    requires id in list
    ensures k < |list| && list[k] == id && id !in list[..k]
  {
    k := 0;
    while list[k] != id
      invariant k < |list| && id !in list[..k] && id in list[k..]
      decreases |list| - k
    {
      k := k + 1;
    }
  }

  lemma {:induction false} BlankAbsent(list: seq<Id>, id: Id)
    requires id !in list
    ensures Blank(list, id) == list
  {
    if list != [] {
      BlankAbsent(list[1..], id);
    }
  }

  lemma {:induction false} BlankFirst(list: seq<Id>, id: Id, k: nat)
    requires k < |list| && list[k] == id && id !in list[..k]
    ensures Blank(list, id) == list[k := ""]
  {
    if k > 0 {
      assert list[..k] == [list[0]] + list[1..][..k-1];
      BlankFirst(list[1..], id, k - 1);
    }
  }
}
