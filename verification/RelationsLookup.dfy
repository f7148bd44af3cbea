/** One lookup as an object that walks over the shared table step by step, as
    its callbacks do, and in the end reports exactly once. */
module RelationsLookups {
  import opened DhtRelations

  const LIMIT_LOOKUPS: nat := 100
  const MAX_MISSES_IN_ROW: nat := 3

  /** The part of the distributed table that belongs to one customer. */
  class Dht {
    var slots: Table

    constructor (slots: Table)
      ensures this.slots == slots
    {
      this.slots := slots;
    }
  }

  datatype Report = Success(suppliers: seq<Id>) | Failure

  class RelationsLookup {
    const dht: Dht
    const customer: Id
    const me: Id
    const newData: Option<Id>
    const publish: bool
    const online: bool
    const failed: set<nat>

    var index: nat
    var lastSuccessIndex: int
    var lastMissedIndex: int
    var missed: nat
    var result: map<nat, Id>

    // What the outside sees: the slots read and the results delivered.
    var visited: seq<nat>
    var reports: seq<Report>

    ghost function Query(): Query {
      DhtRelations.Query(customer, me, LIMIT_LOOKUPS, MAX_MISSES_IN_ROW)
    }

    /** The last success is the last slot found. */
    ghost predicate Valid()
      reads this
    {
      -1 <= lastSuccessIndex < index && forall i :: i in result ==> i <= lastSuccessIndex
    }

    /** What the lookup still has to do from here. */
    ghost function Rest(): End
      reads this, dht
    {
      Walk(Seen(dht.slots, failed), Query(), publish, index, lastMissedIndex, result)
    }

    /** online and failed say which operations on the table succeed. */
    constructor (dht: Dht, customer: Id, me: Id, newData: Option<Id>, publish: bool, online: bool, failed: set<nat>)
      ensures this.dht == dht && this.customer == customer && this.me == me
      ensures this.newData == newData && this.publish == publish
      ensures this.online == online && this.failed == failed
      ensures Valid() && visited == [] && reports == []
      ensures index == 0 && lastMissedIndex == -1 && result == map[]
    {
      this.dht, this.customer, this.me := dht, customer, me;
      this.newData, this.publish, this.online, this.failed := newData, publish, online, failed;
      index, lastSuccessIndex, lastMissedIndex, missed, result := 0, -1, -1, 0, map[];
      visited, reports := [], [];
    }

    /** A whole lookup: the slots read, the slot changed, the one report. */
    method Start()
      requires Valid() && index == 0 && lastMissedIndex == -1 && result == map[] && visited == [] && reports == []
      modifies this, dht
      ensures reports == [Outcome(old(Rest()))]
      ensures forall k :: 0 <= k < |visited| ==> visited[k] == k
      ensures |visited| == old(Rest()).index + if old(Rest()).atSlot then 1 else 0
      ensures |visited| <= 100 && Query() == DhtRelations.Query(customer, me, 100, 3)
      ensures dht.slots == Commit(old(dht.slots), Query(), newData, online, old(Rest()))
      ensures !publish ==>
        reports == [Success(ScanResult(Seen(old(dht.slots), failed), Query()))] && dht.slots == old(dht.slots)
      ensures publish ==> dht.slots == Change(old(dht.slots), failed, Query(), newData, online)
      ensures publish && NoSlot(Seen(old(dht.slots), failed), Query()) ==>
        reports == [Success(Names(Seen(old(dht.slots), failed), Query(), LIMIT_LOOKUPS))]
      ensures forall p :: publish && 0 <= p && IsSlot(Seen(old(dht.slots), failed), Query(), p) ==>
        reports == [if online then Success(Names(Seen(old(dht.slots), failed), Query(), p + 1)) else Failure]
    {
      hide Names, NoSlot, IsSlot, Walk;
      Reported(Seen(dht.slots, failed), Query());
      WalkBound(Seen(dht.slots, failed), Query(), publish, 0, -1, map[]);
      DoRead();
      UptoAt(0, old(Rest()).index + if old(Rest()).atSlot then 1 else 0);
      WalkNoSlot(Seen(old(dht.slots), failed), Query(), 0, -1, map[]);
    }

    /** What is reported when the lookup ends. */
    ghost function Outcome(e: End): Report {
      if e.atSlot && !online then Failure
      else Success(Listed(e.found, if e.atSlot then e.index + 1 else e.index))
    }

    method DoRead()
      requires Valid()
      modifies this, dht
      ensures reports == old(reports) + [Outcome(old(Rest()))]
      ensures visited == old(visited) + Upto(old(index), old(Rest()).index + if old(Rest()).atSlot then 1 else 0)
      ensures dht.slots == Commit(old(dht.slots), Query(), newData, online, old(Rest()))
      decreases LIMIT_LOOKUPS - index, 1
    {
      if index >= LIMIT_LOOKUPS {
        DoReportSuccess();
        return;
      }
      if lastMissedIndex >= 0 && index - lastMissedIndex > MAX_MISSES_IN_ROW {
        DoReportSuccess();
        return;
      }
      var value := if index in dht.slots && index !in failed then dht.slots[index] else NoData;
      visited := visited + [index];
      UptoFirst(index, old(Rest()).index + if old(Rest()).atSlot then 1 else 0);
      DoVerify(value);
    }

    method DoVerify(value: Value)
      requires Valid() && !Over(Query(), index, lastMissedIndex)
      requires value == if index in dht.slots && index !in failed then dht.slots[index] else NoData
      modifies this, dht
      ensures reports == old(reports) + [Outcome(old(Rest()))]
      ensures visited == old(visited) + Upto(old(index) + 1, old(Rest()).index + if old(Rest()).atSlot then 1 else 0)
      ensures dht.slots == Commit(old(dht.slots), Query(), newData, online, old(Rest()))
      decreases LIMIT_LOOKUPS - index, 0
    {
      if value.NoData? || value.customer.None? || value.supplier.None? {
        DoProcess("", -1);
        return;
      }
      if value.customer.value != customer {
        DoProcess("", -1);
        return;
      }
      if value.supplier.value == me {
        DoProcess(me, 1);
        return;
      }
      if value.supplier.value in result.Values {
        DoProcess("", -1);
        return;
      }
      DoProcess(value.supplier.value, 0);
    }

    method DoProcess(supplier: Id, verified: int)
      requires Valid() && !Over(Query(), index, lastMissedIndex)
      requires Verify(Seen(dht.slots, failed), Query(), result, index)
            == if verified == -1 then Miss else if verified == 0 then Other(supplier) else Mine
      requires verified == 1 ==> supplier == me
      requires -1 <= verified <= 1
      modifies this, dht
      ensures reports == old(reports) + [Outcome(old(Rest()))]
      ensures visited == old(visited) + Upto(old(index) + 1, old(Rest()).index + if old(Rest()).atSlot then 1 else 0)
      ensures dht.slots == Commit(old(dht.slots), Query(), newData, online, old(Rest()))
      decreases LIMIT_LOOKUPS - index, -1
    {
      if verified != -1 {
        lastSuccessIndex := index;
        result := result[index := supplier];
      }
      if publish && verified != 0 {
        if newData.Some? {
          DoWrite();
        } else {
          DoErase();
        }
        return;
      }
      DoNext(verified);
      DoRead();
    }

    method DoNext(verified: int)
      modifies `missed, `lastMissedIndex, `index
      ensures index == old(index) + 1
      ensures lastMissedIndex ==
        if verified == -1 && old(lastMissedIndex) == -1 then old(index) else old(lastMissedIndex)
    {
      if verified == -1 {
        missed := missed + 1;
        if lastMissedIndex == -1 {
          lastMissedIndex := index;
        }
      }
      index := index + 1;
    }

    method DoWrite()
      requires newData.Some? && lastSuccessIndex <= index && forall i :: i in result ==> i <= lastSuccessIndex
      modifies this, dht
      ensures reports == old(reports) + [Outcome(End(old(index), true, old(result)))]
      ensures visited == old(visited)
      ensures dht.slots == Commit(old(dht.slots), Query(), newData, online, End(old(index), true, old(result)))
    {
      if online {
        dht.slots := dht.slots[index := Record(customer, newData.value)];
        DoReportSuccess();
      } else {
        DoReportFailed();
      }
    }

    method DoErase()
      requires newData.None? && lastSuccessIndex <= index && forall i :: i in result ==> i <= lastSuccessIndex
      modifies this, dht
      ensures reports == old(reports) + [Outcome(End(old(index), true, old(result)))]
      ensures visited == old(visited)
      ensures dht.slots == Commit(old(dht.slots), Query(), newData, online, End(old(index), true, old(result)))
    {
      if online {
        dht.slots := dht.slots - {index};
        DoReportSuccess();
      } else {
        DoReportFailed();
      }
    }

    method DoReportSuccess()
      requires lastSuccessIndex <= index && forall i :: i in result ==> i <= lastSuccessIndex
      modifies this
      ensures visited == old(visited)
      ensures forall n: nat :: n > old(lastSuccessIndex) ==> reports == old(reports) + [Success(Listed(old(result), n))]
    {
      var list: seq<Id> := [];
      var i := 0;
      while i < lastSuccessIndex + 1
        invariant 0 <= i && (i == 0 || i <= lastSuccessIndex + 1)
        invariant list == Listed(result, i)
      {
        if i in result && result[i] != "" {
          list := list + [result[i]];
        }
        i := i + 1;
      }
      forall n: nat | n > lastSuccessIndex
        ensures Listed(result, n) == list
      {
        ListedStable(result, i, n);
      }
      reports := reports + [Success(list)];
      DoClose();
    }

    method DoReportFailed()
      modifies this
      ensures visited == old(visited) && reports == old(reports) + [Failure]
    {
      reports := reports + [Failure];
      DoClose();
    }

    method DoClose()
      modifies `index, `lastSuccessIndex, `lastMissedIndex, `missed, `result
      ensures index == 0 && lastSuccessIndex == -1 && lastMissedIndex == -1 && missed == 0 && result == map[]
    {
      index, lastSuccessIndex, lastMissedIndex, missed, result := 0, -1, -1, 0, map[];
    }
  }

  /** What a publication reports, and where it stops, said of the table. */
  lemma Reported(t: Table, q: DhtRelations.Query)
    ensures var e := Walk(t, q, true, 0, -1, map[]);
      && (NoSlot(t, q) ==> !e.atSlot && Listed(e.found, e.index) == Names(t, q, q.limit))
      && forall p :: 0 <= p && IsSlot(t, q, p) ==>
           e.atSlot && e.index == p && Listed(e.found, p + 1) == Names(t, q, p + 1)
  {
    hide Walk, Names, Good, Own;
    WalkStops(t, q, 0, map[]);
    WalkFinds(t, q, 0, map[]);
  }

  /** The numbers from lo below hi. */
  function Upto(lo: nat, hi: nat): (r: seq<nat>)
    decreases hi - lo
  {
    if lo >= hi then [] else [lo] + Upto(lo + 1, hi)
  }

  lemma UptoFirst(lo: nat, hi: nat)
    ensures lo < hi ==> Upto(lo, hi) == [lo] + Upto(lo + 1, hi)
  {
  }

  lemma {:induction false} UptoAt(lo: nat, hi: nat)
    requires lo <= hi
    ensures |Upto(lo, hi)| == hi - lo && forall k :: 0 <= k < hi - lo ==> Upto(lo, hi)[k] == lo + k
    decreases hi - lo
  {
    if lo < hi {
      UptoAt(lo + 1, hi);
    }
  }

  /** Beyond the last slot found there is nothing to list. */
  lemma {:induction false} ListedStable(found: map<nat, Id>, i: nat, n: nat)
    requires i <= n && forall j :: j in found ==> j < i
    ensures Listed(found, n) == Listed(found, i)
  {
    if i < n {
      ListedStable(found, i, n - 1);
    }
  }

  lemma {:induction false} WalkBound(t: Table, q: DhtRelations.Query, publish: bool, i: nat, missed: int,
      found: map<nat, Id>)
    requires i <= q.limit
    ensures var e := Walk(t, q, publish, i, missed, found); e.index + (if e.atSlot then 1 else 0) <= q.limit
    decreases q.limit - i
  {
    if !Over(q, i, missed) {
      match Verify(t, q, found, i)
      case Miss =>
        if !publish {
          WalkBound(t, q, publish, i + 1, if missed == -1 then i else missed, found);
        }
      case Other(s) => WalkBound(t, q, publish, i + 1, missed, found[i := s]);
      case Mine =>
        if !publish {
          WalkBound(t, q, publish, i + 1, missed, found[i := q.me]);
        }
    }
  }

  lemma {:induction false} WalkNoSlot(t: Table, q: Query, i: nat, missed: int, found: map<nat, Id>)
    ensures !Walk(t, q, false, i, missed, found).atSlot
    decreases q.limit - i
  {
    if !Over(q, i, missed) {
      match Verify(t, q, found, i)
      case Miss => WalkNoSlot(t, q, i + 1, if missed == -1 then i else missed, found);
      case Other(s) => WalkNoSlot(t, q, i + 1, missed, found[i := s]);
      case Mine => WalkNoSlot(t, q, i + 1, missed, found[i := q.me]);
    }
  }
}
