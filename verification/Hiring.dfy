/** The hiring state machine on values: its transition table, how a hiring
    phase ends, and who keeps his position over any run. */
module Hiring {
  import opened Sequences
  import opened SupplierList

  datatype State = Ready | Decision | HireOne | FireMany | Connecting

  /** searches counts how often the supplier finder was started, awaited and
      results are the lists of connectors still to answer and of those that have
      answered, closed lists the connectors told to shut down. */
  datatype Machine = Machine(
    state: State, needRestart: bool, dismissed: seq<Id>, suppliers: seq<Id>, searches: nat,
    awaited: seq<Id>, results: seq<Id>, closed: seq<Id>)

  /** configChanged, known and absent stand for what is read from outside: the
      settings were changed, a connector exists, or which do not. A connector
      that changes its state calls back (ConnectorAnswered); the event it posts
      is handled later (SupplierStateChanged). */
  datatype Event =
    | Restart(configChanged: bool)
    | Instant(configChanged: bool)
    | MadeDecision(toDismiss: seq<Id>)
    | SupplierConnected(id: Id)
    | SearchFailed
    | ConnectorAnswered(id: Id)
    | SupplierStateChanged(id: Id, known: bool)
    | Timer(absent: set<Id>)

  predicate SomeSuppliers(list: seq<Id>) {
    |list| > 0 && Count(list, "") < |list|
  }

  /** doConnectSuppliers */
  function Connectable(list: seq<Id>): seq<Id> {
    if list == [] then []
    else Connectable(list[..|list|-1]) + if list[|list|-1] == "" then [] else [list[|list|-1]]
  }

  function StepReady(m: Machine, e: Event): Machine {
    if e.Restart? || (e.Instant? && m.needRestart) then
      if e.configChanged && SomeSuppliers(m.suppliers) then
        m.(state := Connecting, needRestart := false, awaited := Connectable(m.suppliers))
      else m.(state := Decision, needRestart := false)
    else m
  }

  function StepDecision(m: Machine, desired: nat, e: Event): Machine {
    match e
    case Restart(_) => m.(needRestart := true)
    case MadeDecision(toDismiss) =>
      if MoreNeeded(m.suppliers, toDismiss, desired) then
        m.(state := HireOne, dismissed := toDismiss, searches := m.searches + 1)
      else if |toDismiss| > 0 then
        m.(state := FireMany, dismissed := toDismiss, suppliers := Remove(m.suppliers, toDismiss, desired),
           results := [])
      else m.(state := Ready)
    case _ => m
  }

  /** A supplier that is in the list already makes the action raise: the list is
      kept, and no search is started. */
  function StepHireOne(m: Machine, desired: nat, e: Event): Machine {
    match e
    case Restart(_) => m.(needRestart := true)
    case SupplierConnected(id) =>
      if id in m.suppliers then m
      else
        var hired := m.(suppliers := Substitute(m.suppliers, m.dismissed, id));
        if StillNeeded(m.suppliers, m.dismissed, desired, id) then hired.(searches := m.searches + 1)
        else if |m.dismissed| > 0 then hired.(state := FireMany, results := [])
        else hired.(state := Ready)
    case SearchFailed =>
      if |m.dismissed| == 0 then m.(state := Ready)
      else m.(state := FireMany, suppliers := Remove(m.suppliers, m.dismissed, desired), results := [])
    case _ => m
  }

  /** doCloseConnectors walks the list by position while it removes from it. */
  function CloseAll(list: seq<Id>, i: nat, absent: set<Id>): seq<Id>
    decreases |list| - i
  {
    if i >= |list| then []
    else (if list[i] in absent then [] else [list[i]]) + CloseAll(RemoveFirst(list, list[i]), i + 1, absent)
  }

  /** isAllDismissed compares the list of those to dismiss, which each closed
      connector shortens, with the results, which each answer lengthens. Closing
      a connector raises if there is none, and then the list is not cleared. */
  function StepFireMany(m: Machine, e: Event): Machine {
    match e
    case Restart(_) => m.(needRestart := true)
    case Timer(absent) =>
      m.(state := Ready, dismissed := [], closed := m.closed + CloseAll(m.dismissed, 0, absent))
    case ConnectorAnswered(id) => m.(results := m.results + [id])
    case SupplierStateChanged(id, known) =>
      var rest := RemoveFirst(m.dismissed, id);
      var n := if known then m.(closed := m.closed + [id]) else m;
      if |m.dismissed| == |m.results| then n.(state := Ready, dismissed := if known then [] else rest)
      else n.(dismissed := rest)
    case _ => m
  }

  function StepConnecting(m: Machine, e: Event): Machine {
    if e.Restart? then m.(needRestart := true)
    else if e.ConnectorAnswered? then m.(awaited := RemoveFirst(m.awaited, e.id))
    else if e.Timer? || (e.SupplierStateChanged? && m.awaited == []) then m.(state := Decision)
    else m
  }

  function Step(m: Machine, desired: nat, e: Event): Machine {
    match m.state
    case Ready => StepReady(m, e)
    case Decision => StepDecision(m, desired, e)
    case HireOne => StepHireOne(m, desired, e)
    case FireMany => StepFireMany(m, e)
    case Connecting => StepConnecting(m, e)
  }

  function Run(m: Machine, desired: nat, es: seq<Event>): Machine
    decreases |es|
  {
    if es == [] then m else Run(Step(m, desired, es[0]), desired, es[1..])
  }

  // ----- what every run keeps

  ghost predicate Sound(m: Machine) {
    Stripped(m.suppliers) && Distinct(m.suppliers)
  }

  /** Identity URLs come without white space around them. */
  ghost predicate Clean(e: Event) {
    e.SupplierConnected? ==> Strip(e.id) == e.id
  }

  /** Nobody dismisses the supplier. */
  predicate Spares(e: Event, id: Id) {
    e.MadeDecision? ==> id !in e.toDismiss
  }

  lemma StepStable(m: Machine, desired: nat, e: Event, i: nat)
    requires Sound(m) && Clean(e)
    ensures Sound(Step(m, desired, e))
    ensures i < |m.suppliers| && i < desired && m.suppliers[i] != ""
            && m.suppliers[i] !in m.dismissed && Spares(e, m.suppliers[i]) ==>
      var r := Step(m, desired, e);
      i < |r.suppliers| && r.suppliers[i] == m.suppliers[i] && m.suppliers[i] !in r.dismissed
  {
    hide Strip, Stripped, Distinct, Remove, Substitute, MoreNeeded, StillNeeded, SomeSuppliers, CloseAll, RemoveFirst;
    if e.MadeDecision? {
      RemoveAt(m.suppliers, e.toDismiss, desired);
    } else if e.SearchFailed? {
      RemoveAt(m.suppliers, m.dismissed, desired);
    } else if e.SupplierConnected? {
      SubstituteAt(m.suppliers, m.dismissed, e.id);
      StrippedAt(m.suppliers, i);
    }
  }

  lemma StrippedAt(list: seq<Id>, i: nat)
    requires Stripped(list)
    ensures i < |list| ==> Strip(list[i]) == list[i]
  {
  }

  /** Over any run of hirings, removals and restarts the suppliers stay pairwise
      distinct, and a supplier in the first desired positions whom nobody
      dismisses keeps his position. */
  lemma {:induction false} PositionsStable(m: Machine, desired: nat, es: seq<Event>, i: nat)
    requires Sound(m) && forall e :: e in es ==> Clean(e)
    ensures Sound(Run(m, desired, es))
    ensures i < |m.suppliers| && i < desired && m.suppliers[i] != ""
            && m.suppliers[i] !in m.dismissed && (forall e :: e in es ==> Spares(e, m.suppliers[i])) ==>
      i < |Run(m, desired, es).suppliers| && Run(m, desired, es).suppliers[i] == m.suppliers[i]
    decreases |es|
  {
    hide Sound, Step, Clean;
    if es != [] {
      StepStable(m, desired, es[0], i);
      PositionsStable(Step(m, desired, es[0]), desired, es[1..], i);
    }
  }

  // ----- a hiring phase

  /** The first n positions hold n distinct suppliers, none of them dismissed. */
  ghost predicate Filled(list: seq<Id>, dismissed: seq<Id>, n: nat) {
    && n <= |list|
    && (forall i :: 0 <= i < n ==> list[i] != "" && list[i] !in dismissed)
    && forall i, j :: 0 <= i < j < n ==> list[i] != list[j]
  }

  lemma FilledIsFull(list: seq<Id>, dismissed: seq<Id>, n: nat)
    requires Stripped(list)
    ensures Filled(list, dismissed, n) <==> |Healthy(list, dismissed, n)| == n
  {
    hide Strip;
    StripDone("");
    Shares(list, dismissed, n);
    OpenCountZero(list, dismissed, n);
    if Filled(list, dismissed, n) {
      assert forall i :: 0 <= i < n ==> !Open(list, dismissed, i);
    }
    assert Open(list, dismissed, |list|);
    if |Healthy(list, dismissed, n)| == n {
      forall i | 0 <= i < n
        ensures list[i] != "" && list[i] !in dismissed
      {
        assert !Open(list, dismissed, i);
      }
    }
  }

  /** The last open position among the first n is a hole in the list. */
  ghost predicate LastHole(list: seq<Id>, dismissed: seq<Id>, n: nat) {
    exists p :: LastHoleAt(list, dismissed, n, p)
  }

  ghost predicate LastHoleAt(list: seq<Id>, dismissed: seq<Id>, n: nat, p: int) {
    0 <= p < n && p < |list| && list[p] == "" && forall i :: p < i < n ==> !Open(list, dismissed, i)
  }

  function Max(a: int, b: int): int {
    if a > b then a else b
  }

  /** How many hires end a phase, if any number does: one for each missing
      supplier, but at least one. Only if the empty name is itself to be
      dismissed can a hole cost one more. */
  ghost function Due(list: seq<Id>, dismissed: seq<Id>, desired: nat): int {
    Max(1, desired - |Healthy(list, dismissed, desired)|)
      + if "" in dismissed && LastHole(list, dismissed, desired) && HealthyOnce(list, dismissed, desired) then 1 else 0
  }

  /** At most one desired position repeats a healthy supplier. */
  ghost predicate Ends(list: seq<Id>, dismissed: seq<Id>, desired: nat) {
    RepeatCount(list, dismissed, desired) <= 1
  }

  lemma {:induction false} OpenCountTwo(list: seq<Id>, dismissed: seq<Id>, i: nat, j: nat, n: nat)
    requires i < j < n && Open(list, dismissed, i) && Open(list, dismissed, j)
    ensures OpenCount(list, dismissed, n) >= 2
  {
    hide Strip;
    if j < n - 1 {
      OpenCountTwo(list, dismissed, i, j, n - 1);
    } else {
      OpenCountZero(list, dismissed, n - 1);
    }
  }

  /** How the number of holes that the test subtracts relates to the last one. */
  lemma HolesLeft(list: seq<Id>, dismissed: seq<Id>, n: nat)
    requires Stripped(list)
    ensures OpenCount(list, dismissed, n) == 0 ==> !LastHole(list, dismissed, n) && Count(Take(list, n), "") == 0
    ensures OpenCount(list, dismissed, n) == 1 ==>
              Count(Take(list, n), "") == if LastHole(list, dismissed, n) then 1 else 0
  {
    hide Strip;
    StripDone("");
    HolesBound(list, dismissed, n);
    OpenCountZero(list, dismissed, n);
    if OpenCount(list, dismissed, n) == 1 && "" in Take(list, n) {
      var p :| 0 <= p < n && p < |list| && list[p] == "";
      forall i | p < i < n
        ensures !Open(list, dismissed, i)
      {
        if Open(list, dismissed, i) {
          OpenCountTwo(list, dismissed, p, i, n);
        }
      }
      assert LastHoleAt(list, dismissed, n, p);
    }
    if LastHole(list, dismissed, n) {
      var p :| LastHoleAt(list, dismissed, n, p);
      assert Take(list, n)[p] == "";
    }
  }

  lemma LastHoleStays(list: seq<Id>, dismissed: seq<Id>, n: nat, id: Id)
    requires Stripped(list) && Fresh(list, dismissed, id) && OpenCount(list, dismissed, n) >= 2
    ensures LastHole(Substitute(list, dismissed, id), dismissed, n) == LastHole(list, dismissed, n)
  {
    hide Strip;
    StripDone("");
    var q, r := FirstOpen(list, dismissed), Substitute(list, dismissed, id);
    SubstituteAt(list, dismissed, id);
    if LastHole(list, dismissed, n) {
      var p :| LastHoleAt(list, dismissed, n, p);
      if p == q {
        HireCounts(list, dismissed, n, id);
        OpenCountZero(r, dismissed, n);
        forall i | 0 <= i < n
          ensures !Open(r, dismissed, i)
        {
          assert i != p ==> !Open(list, dismissed, i);
        }
      }
      forall i | p < i < n
        ensures !Open(r, dismissed, i)
      {
        assert !Open(list, dismissed, i);
      }
      assert LastHoleAt(r, dismissed, n, p);
    }
    if LastHole(r, dismissed, n) {
      var p :| LastHoleAt(r, dismissed, n, p);
      assert p != q && p < |list|;
      assert Open(list, dismissed, p);
      forall i | p < i < n
        ensures !Open(list, dismissed, i)
      {
        assert !Open(r, dismissed, i);
      }
      assert LastHoleAt(list, dismissed, n, p);
    }
  }

  /** One hire of the phase: it is the last one exactly if one was due. */
  lemma HireStep(list: seq<Id>, dismissed: seq<Id>, desired: nat, id: Id)
    requires Stripped(list) && Fresh(list, dismissed, id)
    ensures var r, due := Substitute(list, dismissed, id), Due(list, dismissed, desired);
      && Stripped(r) && RepeatCount(r, dismissed, desired) == RepeatCount(list, dismissed, desired)
      && (StillNeeded(list, dismissed, desired, id) <==> !Ends(list, dismissed, desired) || due > 1)
      && (Ends(list, dismissed, desired) && due > 1 ==> Due(r, dismissed, desired) == due - 1)
      && (Ends(list, dismissed, desired) && due == 1 ==>
            (Filled(r, dismissed, desired) <==> HealthyOnce(list, dismissed, desired)))
  {
    hide Strip, LastHole, Filled, HealthyOnce, OpenCount, RepeatCount, Healthy, Substitute, StillNeeded, Count;
    var r := Substitute(list, dismissed, id);
    SubstituteAt(list, dismissed, id);
    Shares(list, dismissed, desired);
    Shares(r, dismissed, desired);
    HireCounts(list, dismissed, desired, id);
    StillNeededExact(list, dismissed, desired, id);
    HolesBound(list, dismissed, desired);
    HolesLeft(list, dismissed, desired);
    HolesLeft(r, dismissed, desired);
    FilledIsFull(r, dismissed, desired);
    if OpenCount(list, dismissed, desired) >= 2 {
      LastHoleStays(list, dismissed, desired, id);
    }
  }

  /** The suppliers still to come stay fresh. */
  lemma FreshStays(list: seq<Id>, dismissed: seq<Id>, ids: seq<Id>)
    requires Stripped(list) && ids != [] && NoDup(ids) && forall id :: id in ids ==> Fresh(list, dismissed, id)
    ensures Strip(ids[0]) == ids[0]
    ensures Stripped(Substitute(list, dismissed, ids[0]))
    ensures NoDup(ids[1..]) && forall id :: id in ids[1..] ==> Fresh(Substitute(list, dismissed, ids[0]), dismissed, id)
  {
    hide Strip;
    assert Fresh(list, dismissed, ids[0]);
    SubstituteAt(list, dismissed, ids[0]);
    assert ids[0] !in ids[1..];
    forall id | id in ids[1..]
      ensures Fresh(Substitute(list, dismissed, ids[0]), dismissed, id)
    {
      assert id in ids && Fresh(list, dismissed, id);
    }
  }

  function Hired(ids: seq<Id>): (r: seq<Event>)
    ensures |r| == |ids| && forall i :: 0 <= i < |ids| ==> r[i] == SupplierConnected(ids[i])
  {
    seq(|ids|, i requires 0 <= i < |ids| => SupplierConnected(ids[i]))
  }

  /** After the phase, newly connected suppliers change nothing. */
  lemma {:induction false} Ended(m: Machine, desired: nat, ids: seq<Id>)
    requires m.state == Ready || m.state == FireMany
    ensures Run(m, desired, Hired(ids)) == m
    decreases |ids|
  {
    if ids != [] {
      assert Hired(ids)[1..] == Hired(ids[1..]);
      Ended(m, desired, ids[1..]);
    }
  }

  /** Different suppliers, each new to the list and not to be dismissed. */
  ghost predicate Feed(m: Machine, ids: seq<Id>) {
    NoDup(ids) && forall id :: id in ids ==> Fresh(m.suppliers, m.dismissed, id)
  }

  /** A hiring phase fed with fresh suppliers, with D desired and K healthy ones
      in the desired positions. It goes on exactly as long as two or more of
      these positions repeat a healthy supplier, so forever, or fewer were hired
      than are due. What is due is max(1, D - K), and one more if the empty name
      is dismissed, the last open position is a hole and nobody stands twice.
      When it ends, the desired positions hold distinct suppliers that are not
      dismissed exactly if none stood there twice at the start. */
  lemma {:induction false} HirePhase(m: Machine, desired: nat, ids: seq<Id>)
    requires m.state == HireOne && Stripped(m.suppliers) && Feed(m, ids)
    ensures var r := Run(m, desired, Hired(ids));
      var extra := "" in m.dismissed && LastHole(m.suppliers, m.dismissed, desired)
                   && HealthyOnce(m.suppliers, m.dismissed, desired);
      var due := Max(1, desired - |Healthy(m.suppliers, m.dismissed, desired)|) + if extra then 1 else 0;
      && (r.state == HireOne <==> RepeatCount(m.suppliers, m.dismissed, desired) >= 2 || |ids| < due)
      && (r.state != HireOne ==>
            && r.state == (if |m.dismissed| > 0 then FireMany else Ready)
            && r.searches == m.searches + due - 1
            && (Filled(r.suppliers, m.dismissed, desired) <==> HealthyOnce(m.suppliers, m.dismissed, desired)))
      && r.dismissed == m.dismissed && Stripped(r.suppliers)
      && RepeatCount(r.suppliers, m.dismissed, desired) == RepeatCount(m.suppliers, m.dismissed, desired)
    decreases |ids|
  {
    hide Strip, Stripped, LastHole, Filled, HealthyOnce, Healthy, StillNeeded, RepeatCount, Substitute;
    Shares(m.suppliers, m.dismissed, desired);
    if ids != [] {
      var list := Substitute(m.suppliers, m.dismissed, ids[0]);
      FreshStays(m.suppliers, m.dismissed, ids);
      HireStep(m.suppliers, m.dismissed, desired, ids[0]);
      Shares(list, m.dismissed, desired);
      var m1 := Step(m, desired, SupplierConnected(ids[0]));
      assert Hired(ids)[1..] == Hired(ids[1..]);
      if m1.state == HireOne {
        HirePhase(m1, desired, ids[1..]);
      } else {
        Ended(m1, desired, ids[1..]);
      }
    }
  }

  /** Whatever the list, a feed as long as is due leaves the desired positions
      filled exactly if no healthy supplier stood there twice at the start. */
  lemma PhaseOutcome(m: Machine, desired: nat, ids: seq<Id>)
    requires m.state == HireOne && Stripped(m.suppliers) && Feed(m, ids)
    requires |ids| >= Due(m.suppliers, m.dismissed, desired)
    ensures Filled(Run(m, desired, Hired(ids)).suppliers, m.dismissed, desired)
        <==> HealthyOnce(m.suppliers, m.dismissed, desired)
  {
    hide Strip, Stripped, HealthyOnce, Healthy, Filled, RepeatCount, LastHole, Feed, Step;
    HirePhase(m, desired, ids);
    var r := Run(m, desired, Hired(ids));
    Shares(m.suppliers, m.dismissed, desired);
    Shares(r.suppliers, m.dismissed, desired);
    FilledIsFull(r.suppliers, m.dismissed, desired);
  }

  function Triple(): Machine {
    Machine(HireOne, false, [], ["a", "a", "a"], 1, [], [], [])
  }

  /** A list on which no number of hires ends the phase. */
  lemma EndlessPhase(ids: seq<Id>)
    requires Feed(Triple(), ids)
    ensures Run(Triple(), 3, Hired(ids)).state == HireOne
  {
    var list: seq<Id> := ["a", "a", "a"];
    StripDone("a");
    assert !Open(list, [], 1) && !Open(list, [], 2);
    assert Take(list, 1)[0] == "a" && Take(list, 2)[0] == "a";
    assert RepeatCount(list, [], 3) == RepeatCount(list, [], 2) + 1;
    assert RepeatCount(list, [], 2) == RepeatCount(list, [], 1) + 1;
    HirePhase(Triple(), 3, ids);
  }

  /** Firing without hiring leaves the desired positions filled exactly if those
      fired all stood behind them: a healthy supplier behind the desired ones
      counts as enough, yet is cut off. */
  lemma FiringFills(list: seq<Id>, dismissed: seq<Id>, desired: nat)
    requires Stripped(list) && Distinct(list) && !MoreNeeded(list, dismissed, desired)
    ensures desired <= |list|
    ensures Filled(Remove(list, dismissed, desired), dismissed, desired)
        <==> forall i :: 0 <= i < desired ==> list[i] !in dismissed
  {
    hide Strip, Stripped, Remove;
    SubsetBound(Elements(list) - Elements(dismissed), list);
    RemoveAt(list, dismissed, desired);
    var r := Remove(list, dismissed, desired);
    forall i | 0 <= i < desired
      ensures r[i] != "" <==> list[i] !in dismissed
    {
      assert list[i] in list;
    }
  }

  /** Such a list: b is behind the one desired position, so nobody is hired, and
      with a dismissed the position is left empty. */
  lemma FiringLeavesHole()
    ensures var r := Remove(["a", "b"], ["a"], 1);
      !MoreNeeded(["a", "b"], ["a"], 1) && r == [""] && !Filled(r, ["a"], 1)
  {
    var list: seq<Id> := ["a", "b"];
    StripDone("a");
    StripDone("b");
    assert Elements(list) - Elements(["a"]) == {"b"};
    FiringFills(list, ["a"], 1);
    RemoveAt(list, ["a"], 1);
    assert list[0] in ["a"];
  }

  // ----- a firing phase

  /** Only answers of connectors, and the events they posted: each for a supplier
      to dismiss who has a connector, and for nobody twice. */
  ghost predicate Closings(dismissed: seq<Id>, es: seq<Event>) {
    && (forall e :: e in es ==> e.ConnectorAnswered? || (e.SupplierStateChanged? && e.known && e.id in dismissed))
    && forall i, j :: 0 <= i < j < |es| && es[i].SupplierStateChanged? && es[j].SupplierStateChanged? ==>
         es[i].id != es[j].id
  }

  function ClosedBy(es: seq<Event>): seq<Id> {
    if es == [] then []
    else (if es[0].SupplierStateChanged? then [es[0].id] else []) + ClosedBy(es[1..])
  }

  lemma {:induction false} ReadyIgnores(m: Machine, desired: nat, es: seq<Event>)
    requires m.state == Ready && forall e :: e in es ==> e.ConnectorAnswered? || e.SupplierStateChanged?
    ensures Run(m, desired, es) == m
    decreases |es|
  {
    if es != [] {
      assert es[0] in es;
      ReadyIgnores(m, desired, es[1..]);
    }
  }

  lemma ClosingsNext(dismissed: seq<Id>, es: seq<Event>)
    requires NoDup(dismissed) && Closings(dismissed, es) && es != []
    ensures es[0].ConnectorAnswered? ==> Closings(dismissed, es[1..])
    ensures es[0].SupplierStateChanged? ==>
      var rest := RemoveFirst(dismissed, es[0].id);
      |rest| == |dismissed| - 1 && NoDup(rest) && Closings(rest, es[1..])
  {
    if es[0].SupplierStateChanged? {
      RemoveIsWithout(dismissed, es[0].id);
      WithoutNoDup(dismissed, {es[0].id});
    }
  }

  lemma FireStep(m: Machine, desired: nat, e: Event)
    requires m.state == FireMany && NoDup(m.dismissed)
    requires e.ConnectorAnswered? || (e.SupplierStateChanged? && e.known && e.id in m.dismissed)
    ensures var r := Step(m, desired, e);
      && r.closed == m.closed + (if e.SupplierStateChanged? then [e.id] else [])
      && (r.state == FireMany || r.state == Ready)
      && (r.state == Ready <==> e.SupplierStateChanged? && |m.dismissed| == |m.results|)
      && r.suppliers == m.suppliers && (r.state == Ready ==> r.dismissed == [])
      && (r.state == FireMany && e.ConnectorAnswered? ==>
            r.dismissed == m.dismissed && |r.results| == |m.results| + 1)
      && (r.state == FireMany && e.SupplierStateChanged? ==>
            r.dismissed == RemoveFirst(m.dismissed, e.id) && r.results == m.results)
  {
    hide RemoveFirst;
  }

  lemma ClosingsKind(dismissed: seq<Id>, es: seq<Event>)
    requires Closings(dismissed, es)
    ensures forall e :: e in es ==> e.ConnectorAnswered? || (e.SupplierStateChanged? && e.known && e.id in dismissed)
  {
  }

  lemma ClosedNext(e: Event, es: seq<Event>)
    ensures ClosedBy([e] + es) == (if e.SupplierStateChanged? then [e.id] else []) + ClosedBy(es)
  {
    assert ([e] + es)[1..] == es;
  }

  /** Event n is one that a connector posted. */
  predicate Posted(es: seq<Event>, n: int) {
    0 <= n < |es| && es[n].SupplierStateChanged?
  }

  /** The events up to that one, or all. */
  function UpTo(es: seq<Event>, n: int): seq<Event> {
    if Posted(es, n) then es[..n+1] else es
  }

  lemma UpToNext(es: seq<Event>, n: int)
    requires es != []
    ensures n == 0 && es[0].SupplierStateChanged? ==> Posted(es, n) && UpTo(es, n) == [es[0]] + []
    ensures n != 0 || !es[0].SupplierStateChanged? ==>
      Posted(es, n) == Posted(es[1..], n - 1) && UpTo(es, n) == [es[0]] + UpTo(es[1..], n - 1)
  {
    assert es == [es[0]] + es[1..];
    if n > 0 && Posted(es, n) {
      assert es[..n+1] == [es[0]] + es[1..][..n];
    }
  }

  /** A firing phase with n suppliers to dismiss ends exactly if, after n answers
      and posted events in any mixture, the next one is a posted event: neither
      when all have answered nor when all connectors are closed. Later ones are
      ignored, and the connectors that are left stay open. */
  lemma {:induction false} FirePhase(m: Machine, desired: nat, es: seq<Event>)
    requires m.state == FireMany && NoDup(m.dismissed) && Closings(m.dismissed, es)
    ensures var r, n := Run(m, desired, es), |m.dismissed| - |m.results|;
      && r.state == (if Posted(es, n) then Ready else FireMany)
      && r.closed == m.closed + ClosedBy(UpTo(es, n))
      && r.suppliers == m.suppliers && (Posted(es, n) ==> r.dismissed == [])
    decreases |es|
  {
    hide Closings, NoDup, RemoveFirst, Step, ClosedBy, Posted, UpTo;
    var n := |m.dismissed| - |m.results|;
    if es == [] {
      NothingPosted(n);
    } else {
      var m1 := Step(m, desired, es[0]);
      ClosingsNext(m.dismissed, es);
      ClosingsKind(m.dismissed, es);
      FireStep(m, desired, es[0]);
      UpToNext(es, n);
      if m1.state == FireMany {
        ClosedNext(es[0], UpTo(es[1..], n - 1));
        FirePhase(m1, desired, es[1..]);
      } else {
        ClosedNext(es[0], []);
        NothingPosted(n);
        ReadyIgnores(m1, desired, es[1..]);
      }
    }
  }

  lemma NothingPosted(n: int)
    ensures !Posted([], n) && UpTo([], n) == [] && ClosedBy([]) == []
  {
  }

  /** The connectors answer in turn, each event handled before the next answer. */
  function InTurn(ids: seq<Id>): (r: seq<Event>)
    ensures |r| == 2 * |ids|
  {
    if ids == [] then [] else [ConnectorAnswered(ids[0]), SupplierStateChanged(ids[0], true)] + InTurn(ids[1..])
  }

  lemma {:induction false} InTurnAt(ids: seq<Id>, i: nat)
    requires i < 2 * |ids|
    ensures InTurn(ids)[i] ==
      if i % 2 == 0 then ConnectorAnswered(ids[i/2]) else SupplierStateChanged(ids[i/2], true)
  {
    if i >= 2 {
      InTurnAt(ids[1..], i - 2);
    }
  }

  lemma InTurnCloses(dismissed: seq<Id>, ids: seq<Id>)
    requires NoDup(ids) && forall id :: id in ids ==> id in dismissed
    ensures Closings(dismissed, InTurn(ids))
  {
    var es := InTurn(ids);
    forall i | 0 <= i < |es|
      ensures es[i] == if i % 2 == 0 then ConnectorAnswered(ids[i/2]) else SupplierStateChanged(ids[i/2], true)
    {
      InTurnAt(ids, i);
    }
  }

  lemma {:induction false} InTurnClosed(ids: seq<Id>, k: nat)
    requires k <= |ids|
    ensures ClosedBy(InTurn(ids)[..2*k]) == ids[..k]
    decreases k
  {
    if k > 0 {
      var es, rest := InTurn(ids)[..2*k], InTurn(ids[1..])[..2*(k-1)];
      InTurnClosed(ids[1..], k - 1);
      var posted := SupplierStateChanged(ids[0], true);
      assert InTurn(ids) == [ConnectorAnswered(ids[0]), posted] + InTurn(ids[1..]);
      assert es == [ConnectorAnswered(ids[0])] + ([posted] + rest);
      assert es[1..] == [posted] + rest && ([posted] + rest)[1..] == rest;
      assert ClosedBy(es) == ClosedBy(es[1..]) == [ids[0]] + ClosedBy(rest);
    }
  }

  lemma InTurnUpTo(ids: seq<Id>)
    ensures var n, es := |ids|, InTurn(ids);
      && (Posted(es, n) <==> n % 2 == 1)
      && ClosedBy(UpTo(es, n)) == if n % 2 == 1 then ids[..(n + 1) / 2] else ids
  {
    hide ClosedBy, InTurn, UpTo;
    var n, es := |ids|, InTurn(ids);
    if n > 0 {
      InTurnAt(ids, n);
    }
    UpToIs(es, n);
    if n % 2 == 1 {
      var k := (n + 1) / 2;
      assert n + 1 == 2 * k;
      InTurnClosed(ids, k);
    } else {
      InTurnClosed(ids, n);
      assert es[..2*n] == es && ids[..n] == ids;
    }
  }

  lemma UpToIs(es: seq<Event>, n: int)
    ensures UpTo(es, n) == if Posted(es, n) then es[..n+1] else es
  {
  }

  /** If all n suppliers to dismiss answer in turn, the phase ends exactly if n is
      odd, and then with the first (n + 1) / 2 connectors closed only. */
  lemma FiredInTurn(m: Machine, desired: nat, ids: seq<Id>)
    requires m.state == FireMany && m.results == [] && NoDup(m.dismissed)
    requires Lists(ids, Elements(m.dismissed))
    ensures |ids| == |m.dismissed|
    ensures var r, n := Run(m, desired, InTurn(ids)), |ids|;
      && r.state == (if n % 2 == 1 then Ready else FireMany)
      && r.closed == m.closed + if n % 2 == 1 then ids[..(n + 1) / 2] else ids
  {
    hide Run, Closings, ClosedBy, InTurn, Posted, UpTo, NoDup;
    ElementsCount(ids);
    ElementsCount(m.dismissed);
    assert forall id :: id in ids ==> id in Elements(ids);
    InTurnCloses(m.dismissed, ids);
    FirePhase(m, desired, InTurn(ids));
    InTurnUpTo(ids);
  }

  lemma {:induction false} RemoveShifts(list: seq<Id>, i: nat, k: nat)
    requires NoDup(list) && i < |list| && k < |list| && k != i
    ensures var rest := RemoveFirst(list, list[i]);
      |rest| == |list| - 1 && rest[if k < i then k else k - 1] == list[k]
  {
    if i > 0 && k > 0 {
      RemoveShifts(list[1..], i - 1, k - 1);
    }
  }

  lemma CloseAllNext(list: seq<Id>, i: nat, absent: set<Id>)
    ensures i >= |list| ==> CloseAll(list, i, absent) == []
    ensures i < |list| ==> forall id :: id in CloseAll(list, i, absent) <==>
      (id == list[i] && id !in absent) || id in CloseAll(RemoveFirst(list, list[i]), i + 1, absent)
  {
  }

  lemma {:induction false} CloseAllFrom(list: seq<Id>, i: nat, absent: set<Id>, id: Id)
    requires id !in list
    ensures id !in CloseAll(list, i, absent)
    decreases |list| - i
  {
    if i < |list| {
      CloseAllFrom(RemoveFirst(list, list[i]), i + 1, absent, id);
    }
  }

  /** If the time runs out, every other connector that exists is closed. */
  lemma {:induction false} CloseAllSkips(list: seq<Id>, i: nat, k: nat, absent: set<Id>)
    requires NoDup(list) && k < |list|
    ensures list[k] in CloseAll(list, i, absent) <==> k >= i && (k - i) % 2 == 0 && list[k] !in absent
    decreases |list| - i
  {
    hide RemoveFirst, Without, CloseAll;
    CloseAllNext(list, i, absent);
    if i < |list| {
      RemoveIsWithout(list, list[i]);
      WithoutNoDup(list, {list[i]});
      if k == i {
        CloseAllFrom(RemoveFirst(list, list[i]), i + 1, absent, list[i]);
      } else {
        RemoveShifts(list, i, k);
        CloseAllSkips(RemoveFirst(list, list[i]), i + 1, if k < i then k else k - 1, absent);
      }
    }
  }
}
