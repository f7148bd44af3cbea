/** The relations between one customer and his suppliers, kept in numbered slots
    of a distributed table: what a lookup walks over, which slot publishing and
    closing touch, and what they leave to the other suppliers. */
module DhtRelations {
  import opened Sequences

  type Id = string

  datatype Option<T> = None | Some(value: T)

  /** What a slot holds. Fields that are absent or broken are None; a value
      without data, like a slot without a record, is NoData. */
  datatype Value = NoData | Data(customer: Option<Id>, supplier: Option<Id>)

  type Table = map<nat, Value>

  /** Who looks up which customer, how many slots at most, and how far past the
      first miss. */
  datatype Query = Query(customer: Id, me: Id, limit: nat, maxMisses: nat)

  // ----- what a slot is worth

  predicate Usable(t: Table, customer: Id, i: nat) {
    i in t && t[i].Data? && t[i].customer == Some(customer) && t[i].supplier.Some?
  }

  function Supplier(t: Table, customer: Id, i: nat): Id
    requires Usable(t, customer, i)
  {
    t[i].supplier.value
  }

  predicate Holds(t: Table, customer: Id, i: nat, s: Id) {
    Usable(t, customer, i) && Supplier(t, customer, i) == s
  }

  predicate Own(t: Table, q: Query, i: nat) {
    Holds(t, q.customer, i, q.me)
  }

  /** A valid record of a supplier who has none in an earlier slot. */
  ghost predicate Sole(t: Table, customer: Id, i: nat) {
    Usable(t, customer, i) && forall j :: 0 <= j < i ==> !Holds(t, customer, j, Supplier(t, customer, i))
  }

  /** Neither missing nor invalid nor the repetition of another supplier. */
  ghost predicate Good(t: Table, q: Query, i: nat) {
    Own(t, q, i) || Sole(t, q.customer, i)
  }

  // ----- the walk of one lookup

  datatype Verdict = Miss | Other(supplier: Id) | Mine

  /** do_verify */
  function Verify(t: Table, q: Query, found: map<nat, Id>, i: nat): Verdict {
    if !Usable(t, q.customer, i) then Miss
    else
      var s := Supplier(t, q.customer, i);
      if s == q.me then Mine else if s in found.Values then Miss else Other(s)
  }

  predicate Over(q: Query, i: nat, missed: int) {
    i >= q.limit || (missed >= 0 && i - missed > q.maxMisses)
  }

  /** Where a lookup ends: out of slots to read, or at a slot to write or erase. */
  datatype End = End(index: nat, atSlot: bool, found: map<nat, Id>)

  /** do_read, do_process and do_next; publishing and closing stop at a miss and
      at an own record. */
  function Walk(t: Table, q: Query, publish: bool, i: nat, missed: int, found: map<nat, Id>): (e: End)
    ensures e.index >= i
    decreases q.limit - i
  {
    if Over(q, i, missed) then End(i, false, found)
    else
      match Verify(t, q, found, i)
      case Miss =>
        if publish then End(i, true, found)
        else Walk(t, q, publish, i + 1, if missed == -1 then i else missed, found)
      case Other(s) => Walk(t, q, publish, i + 1, missed, found[i := s])
      case Mine =>
        if publish then End(i, true, found[i := q.me])
        else Walk(t, q, publish, i + 1, missed, found[i := q.me])
  }

  /** do_report_success lists what was found, in order and without empty names. */
  function Listed(found: map<nat, Id>, n: nat): seq<Id> {
    if n == 0 then []
    else Listed(found, n - 1) + if n - 1 in found && found[n-1] != "" then [found[n-1]] else []
  }

  function Scan(t: Table, q: Query): End {
    Walk(t, q, false, 0, -1, map[])
  }

  function ScanResult(t: Table, q: Query): seq<Id> {
    Listed(Scan(t, q).found, Scan(t, q).index)
  }

  /** do_write stores the new data, do_erase deletes the slot; either may fail. */
  function Commit(t: Table, q: Query, data: Option<Id>, online: bool, e: End): Table {
    if !e.atSlot || !online then t
    else if data.Some? then t[e.index := Data(Some(q.customer), data)]
    else t - {e.index}
  }

  /** What a lookup sees of the table when the reads of some slots fail: the
      failure is verified in place of a value, and is a miss. */
  function Seen(t: Table, failed: set<nat>): Table {
    t - failed
  }

  /** The walk is over what is seen, the change is made to what is stored. */
  function Change(t: Table, failed: set<nat>, q: Query, data: Option<Id>, online: bool): Table {
    Commit(t, q, data, online, Walk(Seen(t, failed), q, true, 0, -1, map[]))
  }

  lemma SeenAll(t: Table)
    ensures Seen(t, {}) == t
  {
  }

  // ----- the walk against the worth of the slots

  /** found holds exactly the good slots before i. */
  ghost predicate Collected(t: Table, q: Query, i: nat, found: map<nat, Id>) {
    && (forall j :: j in found ==> j < i && Good(t, q, j) && Supplier(t, q.customer, j) == found[j])
    && (forall j :: 0 <= j < i && Good(t, q, j) ==> j in found)
  }

  /** missed is the first slot before i that is not good, or -1. */
  ghost predicate FirstBad(t: Table, q: Query, i: nat, missed: int) {
    if missed < 0 then missed == -1 && forall j :: 0 <= j < i ==> Good(t, q, j)
    else missed < i && !Good(t, q, missed) && forall j :: 0 <= j < missed ==> Good(t, q, j)
  }

  /** Whoever stands in a usable slot stands in a good one at or before it. */
  lemma {:induction false} GoodBefore(t: Table, q: Query, j: nat) returns (k: nat)
    requires Usable(t, q.customer, j)
    ensures k <= j && Good(t, q, k) && Supplier(t, q.customer, k) == Supplier(t, q.customer, j)
    decreases j
  {
    k := j;
    if !Good(t, q, j) {
      var h :| 0 <= h < j && Holds(t, q.customer, h, Supplier(t, q.customer, j));
      k := GoodBefore(t, q, h);
    }
  }

  lemma VerifyExact(t: Table, q: Query, i: nat, found: map<nat, Id>)
    requires Collected(t, q, i, found)
    ensures Verify(t, q, found, i) ==
      if !Good(t, q, i) then Miss else if Own(t, q, i) then Mine else Other(Supplier(t, q.customer, i))
  {
    if Usable(t, q.customer, i) && !Own(t, q, i) {
      var s := Supplier(t, q.customer, i);
      if !Good(t, q, i) {
        var h :| 0 <= h < i && Holds(t, q.customer, h, s);
        var k := GoodBefore(t, q, h);
        assert k in found && found[k] == s;
      } else if s in found.Values {
        var k :| k in found && found[k] == s;
        assert Holds(t, q.customer, k, s);
      }
    }
  }

  lemma CollectedNext(t: Table, q: Query, i: nat, found: map<nat, Id>)
    requires Collected(t, q, i, found)
    ensures Good(t, q, i) ==> Collected(t, q, i + 1, found[i := Supplier(t, q.customer, i)])
    ensures !Good(t, q, i) ==> Collected(t, q, i + 1, found)
  {
    hide Good;
  }

  ghost predicate IsFirstBad(t: Table, q: Query, f: nat) {
    !Good(t, q, f) && forall j :: 0 <= j < f ==> Good(t, q, j)
  }

  function Min(a: int, b: int): int {
    if a < b then a else b
  }

  /** How many slots a scan reads. */
  ghost predicate ReadsExactly(t: Table, q: Query, e: nat) {
    && ((forall j :: 0 <= j < q.limit ==> Good(t, q, j)) ==> e == q.limit)
    && forall f :: 0 <= f < q.limit && IsFirstBad(t, q, f) ==> e == Min(q.limit, f + 1 + q.maxMisses)
  }

  lemma {:induction false} WalkScans(t: Table, q: Query, i: nat, missed: int, found: map<nat, Id>)
    requires i <= q.limit && Collected(t, q, i, found) && FirstBad(t, q, i, missed)
    requires missed >= 0 ==> i <= missed + 1 + q.maxMisses
    ensures var e := Walk(t, q, false, i, missed, found);
      Collected(t, q, e.index, e.found) && ReadsExactly(t, q, e.index) && !e.atSlot
    decreases q.limit - i
  {
    hide Good, Collected;
    if Over(q, i, missed) {
      if missed >= 0 {
        assert IsFirstBad(t, q, missed);
      }
    } else {
      VerifyExact(t, q, i, found);
      GoodOwn(t, q, i);
      CollectedNext(t, q, i, found);
      if !Good(t, q, i) {
        WalkScans(t, q, i + 1, if missed == -1 then i else missed, found);
      } else {
        WalkScans(t, q, i + 1, missed, found[i := Supplier(t, q.customer, i)]);
      }
    }
  }

  lemma GoodOwn(t: Table, q: Query, i: nat)
    ensures Good(t, q, i) ==> Usable(t, q.customer, i)
    ensures Own(t, q, i) ==> Good(t, q, i)
  {
  }

  /** The names of the good slots before n, in order. */
  ghost function Names(t: Table, q: Query, n: nat): seq<Id> {
    if n == 0 then []
    else
      var rest := Names(t, q, n - 1);
      if Good(t, q, n - 1) && Supplier(t, q.customer, n - 1) != "" then
        rest + [Supplier(t, q.customer, n - 1)]
      else rest
  }

  lemma {:induction false} ListedNames(t: Table, q: Query, found: map<nat, Id>, i: nat, n: nat)
    requires Collected(t, q, i, found) && n <= i
    ensures Listed(found, n) == Names(t, q, n)
  {
    if n > 0 {
      ListedNames(t, q, found, i, n - 1);
    }
  }

  /** A scan reads the slots from 0 on: all up to the limit, but no further than
      maxMisses past the first slot that is not good. It lists in order exactly
      the suppliers of the good slots among them, and repeats at most its own. */
  lemma ScanExact(t: Table, q: Query)
    ensures ReadsExactly(t, q, Scan(t, q).index)
    ensures ScanResult(t, q) == Names(t, q, Scan(t, q).index)
    ensures forall j :: j in Scan(t, q).found <==> 0 <= j < Scan(t, q).index && Good(t, q, j)
    ensures forall j :: j in Scan(t, q).found ==> Holds(t, q.customer, j, Scan(t, q).found[j])
    ensures forall j, k :: j in Scan(t, q).found && k in Scan(t, q).found && j < k ==>
              (Scan(t, q).found[j] == Scan(t, q).found[k] ==> Scan(t, q).found[j] == q.me)
  {
    WalkScans(t, q, 0, -1, map[]);
    var e := Scan(t, q);
    ListedNames(t, q, e.found, e.index, e.index);
    forall j, k | j in e.found && k in e.found && j < k && e.found[j] == e.found[k]
      ensures e.found[j] == q.me
    {
      assert Good(t, q, k) && Holds(t, q.customer, j, Supplier(t, q.customer, k));
    }
  }

  /** The first slot with a record of this supplier for this customer. */
  ghost predicate FirstRecord(t: Table, customer: Id, j: nat, s: Id) {
    && j in t && t[j] == Data(Some(customer), Some(s))
    && forall h :: 0 <= h < j && h in t ==> t[h] != Data(Some(customer), Some(s))
  }

  /** In terms of what is stored: a scan lists only suppliers whose record names
      this customer, and no empty names; and of the slots read it finds each that
      holds the first record of its supplier for this customer. */
  lemma ScanRecords(t: Table, q: Query)
    ensures forall j :: j in Scan(t, q).found ==> j in t && t[j] == Data(Some(q.customer), Some(Scan(t, q).found[j]))
    ensures forall s :: s in ScanResult(t, q) ==>
              s != "" && exists j :: j in t && t[j] == Data(Some(q.customer), Some(s))
    ensures forall j, s :: 0 <= j < Scan(t, q).index && FirstRecord(t, q.customer, j, s) ==>
              j in Scan(t, q).found && Scan(t, q).found[j] == s
  {
    hide Scan, Names, Good;
    ScanExact(t, q);
    var e := Scan(t, q);
    forall s | s in ScanResult(t, q)
      ensures s != "" && exists j :: j in t && t[j] == Data(Some(q.customer), Some(s))
    {
      var j := ListedFrom(e.found, e.index, s);
      assert Holds(t, q.customer, j, e.found[j]);
    }
    forall j, s | 0 <= j < e.index && FirstRecord(t, q.customer, j, s)
      ensures j in e.found && e.found[j] == s
    {
      assert Sole(t, q.customer, j);
      SoleGood(t, q, j);
    }
  }

  lemma {:induction false} ListedFrom(found: map<nat, Id>, n: nat, s: Id) returns (j: nat)
    requires s in Listed(found, n)
    ensures j in found && found[j] == s && s != ""
  {
    if n - 1 in found && found[n-1] == s && s != "" {
      j := n - 1;
    } else {
      j := ListedFrom(found, n - 1, s);
    }
  }

  // ----- publishing and closing

  /** The slot that publishing writes and closing erases: the first that is not
      good or is the node's own. */
  ghost predicate IsSlot(t: Table, q: Query, p: nat) {
    && p < q.limit && (!Good(t, q, p) || Own(t, q, p))
    && forall j :: 0 <= j < p ==> Good(t, q, j) && !Own(t, q, j)
  }

  ghost predicate NoSlot(t: Table, q: Query) {
    forall j :: 0 <= j < q.limit ==> Good(t, q, j) && !Own(t, q, j)
  }

  lemma {:induction false} WalkStops(t: Table, q: Query, i: nat, found: map<nat, Id>)
    requires i <= q.limit && Collected(t, q, i, found)
    requires forall j :: 0 <= j < i ==> Good(t, q, j) && !Own(t, q, j)
    ensures var e := Walk(t, q, true, i, -1, found);
      if e.atSlot then IsSlot(t, q, e.index) else NoSlot(t, q)
    decreases q.limit - i
  {
    hide Good, Own, Collected;
    if i < q.limit {
      VerifyExact(t, q, i, found);
      GoodOwn(t, q, i);
      CollectedNext(t, q, i, found);
      if Good(t, q, i) && !Own(t, q, i) {
        WalkStops(t, q, i + 1, found[i := Supplier(t, q.customer, i)]);
      }
    }
  }

  /** A publication or a closing has found, when it stops, exactly the suppliers of
      the good slots up to there. */
  lemma {:induction false} WalkFinds(t: Table, q: Query, i: nat, found: map<nat, Id>)
    requires i <= q.limit && Collected(t, q, i, found)
    ensures var e := Walk(t, q, true, i, -1, found);
      if e.atSlot then Listed(e.found, e.index + 1) == Names(t, q, e.index + 1)
      else e.index == q.limit && Listed(e.found, e.index) == Names(t, q, q.limit)
    decreases q.limit - i
  {
    hide Good, Own, Collected, Names;
    if i < q.limit {
      VerifyExact(t, q, i, found);
      GoodOwn(t, q, i);
      OwnName(t, q, i);
      CollectedNext(t, q, i, found);
      if Good(t, q, i) && !Own(t, q, i) {
        WalkFinds(t, q, i + 1, found[i := Supplier(t, q.customer, i)]);
      } else if Own(t, q, i) {
        ListedNames(t, q, found[i := q.me], i + 1, i + 1);
      } else {
        ListedNames(t, q, found, i + 1, i + 1);
      }
    } else {
      ListedNames(t, q, found, i, i);
    }
  }

  lemma OwnName(t: Table, q: Query, i: nat)
    ensures Own(t, q, i) ==> Usable(t, q.customer, i) && Supplier(t, q.customer, i) == q.me
  {
  }

  function Record(customer: Id, supplier: Id): Value {
    Data(Some(customer), Some(supplier))
  }

  /** Publishing and closing touch exactly that slot of what is seen, if there is
      one below the limit and the table can be reached. */
  lemma ChangeExact(t: Table, failed: set<nat>, q: Query, data: Option<Id>, online: bool)
    ensures NoSlot(Seen(t, failed), q) || !online ==> Change(t, failed, q, data, online) == t
    ensures forall p :: 0 <= p && IsSlot(Seen(t, failed), q, p) && online ==>
      Change(t, failed, q, data, online) == if data.Some? then t[p := Record(q.customer, data.value)] else t - {p}
    ensures NoSlot(Seen(t, failed), q) || exists p :: 0 <= p && IsSlot(Seen(t, failed), q, p)
  {
    hide Seen;
    var seen := Seen(t, failed);
    WalkStops(seen, q, 0, map[]);
    var e := Walk(seen, q, true, 0, -1, map[]);
    forall p | 0 <= p && IsSlot(seen, q, p)
      ensures e.atSlot && e.index == p
    {
    }
  }

  ghost predicate Valid(t: Table, customer: Id, s: Id) {
    exists i :: 0 <= i && Holds(t, customer, i, s)
  }

  lemma HoldsSeen(t: Table, failed: set<nat>, customer: Id, i: nat, s: Id)
    ensures Holds(Seen(t, failed), customer, i, s) <==> Holds(t, customer, i, s) && i !in failed
  {
  }

  /** If the slot was read, what was in it is not missed: it was the node's own,
      or invalid, or its supplier stands earlier too. */
  lemma SlotRepeats(t: Table, failed: set<nat>, q: Query, p: nat, s: Id)
    requires IsSlot(Seen(t, failed), q, p) && p !in failed && s != q.me && Holds(t, q.customer, p, s)
    ensures exists j :: 0 <= j < p && Holds(t, q.customer, j, s)
  {
    var seen := Seen(t, failed);
    HoldsSeen(t, failed, q.customer, p, s);
    assert !Sole(seen, q.customer, p);
    var j :| 0 <= j < p && Holds(seen, q.customer, j, s);
    HoldsSeen(t, failed, q.customer, j, s);
  }

  /** The slot that is written or erased could not be read, and it holds the
      only record of s. */
  ghost predicate Loses(t: Table, failed: set<nat>, q: Query, data: Option<Id>, online: bool, s: Id) {
    online && data != Some(s) && exists p :: 0 <= p && LosesAt(t, failed, q, p, s)
  }

  ghost predicate LosesAt(t: Table, failed: set<nat>, q: Query, p: nat, s: Id) {
    IsSlot(Seen(t, failed), q, p) && p in failed && HoldsOnlyAt(t, q.customer, p, s)
  }

  ghost predicate HoldsOnlyAt(t: Table, customer: Id, p: nat, s: Id) {
    Holds(t, customer, p, s) && forall j :: 0 <= j && j != p ==> !Holds(t, customer, j, s)
  }

  /** Whatever the table holds, publishing and closing lose another supplier with
      a valid record exactly if the slot they touch could not be read and holds
      his only one; if every read succeeds, nobody. And they make nobody valid,
      but for the one published. */
  lemma OthersKept(t: Table, failed: set<nat>, q: Query, data: Option<Id>, online: bool, s: Id)
    requires s != q.me
    ensures var r := Change(t, failed, q, data, online);
      && (Valid(t, q.customer, s) && !Valid(r, q.customer, s) <==> Loses(t, failed, q, data, online, s))
      && (Valid(r, q.customer, s) && !Valid(t, q.customer, s) ==> data == Some(s))
    ensures failed == {} ==> !Loses(t, failed, q, data, online, s)
  {
    hide IsSlot, Walk, Seen, Change;
    var r := Change(t, failed, q, data, online);
    ChangeExact(t, failed, q, data, online);
    if online && !NoSlot(Seen(t, failed), q) {
      var p :| 0 <= p && IsSlot(Seen(t, failed), q, p);
      if p !in failed && Holds(t, q.customer, p, s) {
        SlotRepeats(t, failed, q, p, s);
      }
      forall i | 0 <= i && i != p
        ensures Holds(r, q.customer, i, s) <==> Holds(t, q.customer, i, s)
      {
      }
      assert Holds(r, q.customer, p, s) <==> data == Some(s);
      forall i | 0 <= i && IsSlot(Seen(t, failed), q, i)
        ensures i == p
      {
        SlotUnique(Seen(t, failed), q, p, i);
      }
      if Valid(t, q.customer, s) && !Valid(r, q.customer, s) {
        assert LosesAt(t, failed, q, p, s);
      }
    } else {
      NoLoss(t, failed, q, s);
    }
  }

  lemma NoLoss(t: Table, failed: set<nat>, q: Query, s: Id)
    ensures NoSlot(Seen(t, failed), q) ==> forall p :: 0 <= p ==> !LosesAt(t, failed, q, p, s)
  {
  }

  lemma SlotUnique(t: Table, q: Query, p: nat, i: nat)
    requires IsSlot(t, q, p) && IsSlot(t, q, i)
    ensures i == p
  {
  }

  /** One supplier publishes (some data) or closes (none). */
  datatype Op = Op(me: Id, data: Option<Id>, online: bool, failed: set<nat>)

  function Apply(t: Table, q: Query, ops: seq<Op>): Table {
    if ops == [] then t
    else
      var op := ops[|ops|-1];
      Change(Apply(t, q, ops[..|ops|-1]), op.failed, q.(me := op.me), op.data, op.online)
  }

  /** The last step of a sequence loses s. */
  ghost predicate LastLoses(t: Table, q: Query, ops: seq<Op>, s: Id)
    requires ops != []
  {
    var op := ops[|ops|-1];
    Loses(Apply(t, q, ops[..|ops|-1]), op.failed, q.(me := op.me), op.data, op.online, s)
  }

  /** Over every sequence of publish and close steps by many suppliers, one who
      takes no step and is not published by anybody has a valid record at the end
      exactly if he had one and no step overwrote or erased his only one unread;
      so exactly if he had one, when every read succeeds. */
  lemma {:induction false} BystandersKept(t: Table, q: Query, ops: seq<Op>, s: Id)
    requires forall op :: op in ops ==> op.me != s && op.data != Some(s)
    ensures Valid(Apply(t, q, ops), q.customer, s)
        <==> Valid(t, q.customer, s) && forall k :: 0 < k <= |ops| ==> !LastLoses(t, q, ops[..k], s)
    ensures (forall op :: op in ops ==> op.failed == {}) ==>
      (Valid(Apply(t, q, ops), q.customer, s) <==> Valid(t, q.customer, s))
    decreases |ops|
  {
    hide Change, Valid, Loses;
    if ops != [] {
      var op, rest := ops[|ops|-1], ops[..|ops|-1];
      BystandersKept(t, q, rest, s);
      OthersKept(Apply(t, q, rest), op.failed, q.(me := op.me), op.data, op.online, s);
      assert ops[..|ops|] == ops;
      assert forall k :: 0 < k <= |rest| ==> ops[..k] == rest[..k];
    }
  }

  lemma SoleWritten(t: Table, customer: Id, p: nat, s: Id, i: nat)
    requires i == p ==> forall j :: 0 <= j < p ==> !Holds(t, customer, j, s)
    requires i != p ==> Sole(t, customer, i) && (p < i ==> !Holds(t, customer, i, s))
    ensures var r := t[p := Record(customer, s)];
      Sole(r, customer, i) && Supplier(r, customer, i) == if i == p then s else Supplier(t, customer, i)
  {
    var r := t[p := Record(customer, s)];
    var name := if i == p then s else Supplier(t, customer, i);
    assert Usable(r, customer, i);
    forall j | 0 <= j < i
      ensures !Holds(r, customer, j, name)
    {
      assert j != p ==> (Usable(r, customer, j) <==> Usable(t, customer, j));
      assert j != p ==> !Holds(t, customer, j, name);
    }
  }

  lemma SoleErased(t: Table, customer: Id, p: nat, i: nat)
    requires Sole(t, customer, i) && i != p
    ensures Sole(t - {p}, customer, i) && Supplier(t - {p}, customer, i) == Supplier(t, customer, i)
  {
    var r, s := t - {p}, Supplier(t, customer, i);
    assert Usable(r, customer, i) && Supplier(r, customer, i) == s;
    forall j | 0 <= j < i
      ensures !Holds(r, customer, j, s)
    {
      assert !Holds(t, customer, j, s);
      assert Usable(r, customer, j) ==> Usable(t, customer, j);
    }
  }

  /** What comes before the touched slot was all read. */
  lemma SeenBefore(t: Table, failed: set<nat>, q: Query, p: nat, j: nat)
    requires IsSlot(Seen(t, failed), q, p) && j < p
    ensures Sole(t, q.customer, j) && !Own(t, q, j)
  {
    var seen := Seen(t, failed);
    assert Good(seen, q, j) && !Own(seen, q, j);
    var s := Supplier(seen, q.customer, j);
    HoldsSeen(t, failed, q.customer, j, s);
    forall h | 0 <= h < j
      ensures !Holds(t, q.customer, h, s)
    {
      assert Good(seen, q, h) && !Holds(seen, q.customer, h, s);
      HoldsSeen(t, failed, q.customer, h, s);
      HoldsSeen(t, failed, q.customer, h, Supplier(seen, q.customer, h));
    }
  }

  /** After a publication every slot up to the written one is good for everybody. */
  lemma PublishedGood(t: Table, failed: set<nat>, q: Query, p: nat, x: Id, j: nat)
    requires IsSlot(Seen(t, failed), q, p) && j <= p
    ensures j < p ==> Sole(t, q.customer, j)
    ensures var r := t[p := Record(q.customer, q.me)];
      Sole(r, q.customer, j) && Good(r, q.(me := x), j)
      && Holds(r, q.customer, j, if j < p then Supplier(t, q.customer, j) else q.me)
  {
    hide IsSlot, Seen;
    forall h | 0 <= h < p
      ensures Sole(t, q.customer, h) && !Holds(t, q.customer, h, q.me)
    {
      SeenBefore(t, failed, q, p, h);
    }
    SoleWritten(t, q.customer, p, q.me, j);
  }

  lemma {:induction false} NamesPublished(t: Table, failed: set<nat>, q: Query, p: nat, x: Id, n: nat)
    requires IsSlot(Seen(t, failed), q, p) && n <= p
    ensures Names(t[p := Record(q.customer, q.me)], q.(me := x), n) == Names(t, q, n)
  {
    hide IsSlot, Seen, Sole;
    if n > 0 {
      NamesPublished(t, failed, q, p, x, n - 1);
      PublishedGood(t, failed, q, p, x, n - 1);
      SoleGood(t, q, n - 1);
    }
  }

  lemma SoleGood(t: Table, q: Query, j: nat)
    requires Sole(t, q.customer, j)
    ensures Good(t, q, j) && Usable(t, q.customer, j)
  {
  }

  lemma {:induction false} NamesPrefix(t: Table, q: Query, n: nat, m: nat)
    requires n <= m
    ensures Names(t, q, n) <= Names(t, q, m)
  {
    if n < m {
      NamesPrefix(t, q, n, m - 1);
    }
  }

  /** If a slot below the limit was written, any node's scan begins with every
      supplier before it, followed by the publisher. */
  lemma PublishThenScan(t: Table, failed: set<nat>, q: Query, p: nat, x: Id)
    requires IsSlot(Seen(t, failed), q, p)
    ensures var r := Change(t, failed, q, Some(q.me), true);
      Names(t, q, p) + (if q.me != "" then [q.me] else []) <= ScanResult(r, q.(me := x))
  {
    hide IsSlot, Good, Walk, Names, Seen;
    var r, qx := t[p := Record(q.customer, q.me)], q.(me := x);
    ChangeExact(t, failed, q, Some(q.me), true);
    ScanExact(r, qx);
    NamesPublished(t, failed, q, p, x, p);
    PublishedGood(t, failed, q, p, x, p);
    NamesSnoc(r, qx, p);
    ReachesPast(t, failed, q, p, x);
    NamesPrefix(r, qx, p + 1, Scan(r, qx).index);
  }

  lemma NamesSnoc(t: Table, q: Query, p: nat)
    requires Good(t, q, p)
    ensures var s := Supplier(t, q.customer, p); Names(t, q, p + 1) == Names(t, q, p) + if s != "" then [s] else []
  {
  }

  lemma ReachesPast(t: Table, failed: set<nat>, q: Query, p: nat, x: Id)
    requires IsSlot(Seen(t, failed), q, p)
    ensures p < Scan(t[p := Record(q.customer, q.me)], q.(me := x)).index
  {
    hide Good, Walk, Names, Seen;
    var r, qx := t[p := Record(q.customer, q.me)], q.(me := x);
    ScanExact(r, qx);
    forall j | 0 <= j <= p
      ensures Good(r, qx, j)
    {
      PublishedGood(t, failed, q, p, x, j);
    }
    ReadsPastGood(r, qx, Scan(r, qx).index, p);
  }

  lemma {:induction false} SomeFirstBad(t: Table, q: Query, n: nat) returns (f: nat)
    requires exists j :: 0 <= j < n && !Good(t, q, j)
    ensures f < n && IsFirstBad(t, q, f)
  {
    hide Good;
    if j :| 0 <= j < n - 1 && !Good(t, q, j) {
      f := SomeFirstBad(t, q, n - 1);
    } else {
      f := n - 1;
    }
  }

  lemma ReadsPastGood(t: Table, q: Query, e: nat, p: nat)
    requires ReadsExactly(t, q, e) && p < q.limit && forall j :: 0 <= j <= p ==> Good(t, q, j)
    ensures p < e
  {
    hide Good;
    if j :| 0 <= j < q.limit && !Good(t, q, j) {
      var f := SomeFirstBad(t, q, q.limit);
    }
  }

  /** Publishing again, with every slot read, writes the same slot. */
  lemma Republish(t: Table, failed: set<nat>, q: Query, p: nat)
    requires IsSlot(Seen(t, failed), q, p)
    ensures var r := Change(t, failed, q, Some(q.me), true);
      IsSlot(r, q, p) && Change(r, {}, q, Some(q.me), true) == r
  {
    hide Seen, Change, Walk;
    var r := t[p := Record(q.customer, q.me)];
    ChangeExact(t, failed, q, Some(q.me), true);
    forall j | 0 <= j < p
      ensures Good(r, q, j) && !Own(r, q, j)
    {
      PublishedGood(t, failed, q, p, q.me, j);
      SeenBefore(t, failed, q, p, j);
    }
    assert Own(r, q, p);
    SeenAll(r);
    ChangeExact(r, {}, q, Some(q.me), true);
  }

  // ----- tables without holes

  /** The first n slots are valid and of different suppliers. */
  ghost predicate Packed(t: Table, customer: Id, n: nat) {
    forall i :: 0 <= i < n ==> Sole(t, customer, i)
  }

  lemma SoleDiffers(t: Table, customer: Id, j: nat, k: nat)
    requires Sole(t, customer, j) && Sole(t, customer, k) && j < k
    ensures Supplier(t, customer, j) != Supplier(t, customer, k)
  {
    assert !Holds(t, customer, j, Supplier(t, customer, k));
  }

  /** A slot of a table without holes that is read is only touched by its owner. */
  lemma OwnIfRead(t: Table, failed: set<nat>, q: Query, p: nat)
    requires IsSlot(Seen(t, failed), q, p) && p !in failed && Sole(t, q.customer, p)
    ensures Own(t, q, p)
  {
    var s := Supplier(t, q.customer, p);
    if s != q.me {
      SlotRepeats(t, failed, q, p, s);
    }
  }

  /** A publication keeps the table without holes exactly if no own record stands
      behind the slot it writes; so always if that slot was read. */
  lemma PublishPacks(t: Table, failed: set<nat>, q: Query, p: nat, n: nat)
    requires Packed(t, q.customer, n) && IsSlot(Seen(t, failed), q, p)
    ensures Packed(Change(t, failed, q, Some(q.me), true), q.customer, if p < n then n else p + 1)
        <==> forall i :: p < i < n ==> !Own(t, q, i)
    ensures p < n && p !in failed ==> Own(t, q, p) && forall i :: p < i < n ==> !Own(t, q, i)
  {
    hide Change, Walk;
    var r := t[p := Record(q.customer, q.me)];
    var m := if p < n then n else p + 1;
    ChangeExact(t, failed, q, Some(q.me), true);
    PublishedGood(t, failed, q, p, q.me, p);
    if p < n && p !in failed {
      assert Sole(t, q.customer, p);
      OwnIfRead(t, failed, q, p);
      forall i | p < i < n
        ensures !Own(t, q, i)
      {
        SoleDiffers(t, q.customer, p, i);
      }
    }
    forall i | 0 <= i < m && (p < i ==> !Own(t, q, i))
      ensures Sole(r, q.customer, i)
    {
      if i <= p {
        PublishedGood(t, failed, q, p, q.me, i);
      } else {
        assert Sole(t, q.customer, i);
        SoleWritten(t, q.customer, p, q.me, i);
      }
    }
    forall i | p < i < n && Own(t, q, i)
      ensures !Sole(r, q.customer, i)
    {
      assert Holds(r, q.customer, i, q.me);
    }
  }

  /** Such a table: slot 0 cannot be read, the own record is in slot 1. Then the
      publisher stands twice, and the supplier of slot 0 is lost. */
  lemma UnreadRepeats(customer: Id, me: Id, s: Id)
    requires s != me
    ensures var t, q := map[0 := Record(customer, s), 1 := Record(customer, me)], Query(customer, me, 100, 3);
      Packed(t, customer, 2) && !Packed(Change(t, {0}, q, Some(me), true), customer, 2)
  {
    var t, q := map[0 := Record(customer, s), 1 := Record(customer, me)], Query(customer, me, 100, 3);
    assert IsSlot(Seen(t, {0}), q, 0);
    assert Own(t, q, 1);
    PublishPacks(t, {0}, q, 0, 2);
  }

  /** Closing finds the supplier's slot k of a table without holes exactly if no
      read before it fails. Then scans return exactly the others up to maxMisses
      past slot k. The next new publisher refills slot k exactly if no read before
      it fails, and then the table is without holes again. */
  lemma CloseAndRefill(t: Table, failed: set<nat>, q: Query, n: nat, k: nat, x: Id, y: Id, missed: set<nat>)
    requires Packed(t, q.customer, n) && k < n && k < q.limit && Holds(t, q.customer, k, q.me)
    requires forall j :: 0 <= j < n ==> !Holds(t, q.customer, j, y)
    ensures IsSlot(Seen(t, failed), q, k) <==> forall j :: 0 <= j < k ==> j !in failed
    ensures var r := Change(t, failed, q, None, true);
      IsSlot(Seen(t, failed), q, k) ==>
        && r == t - {k}
        && (forall j :: 0 <= j < n ==>
              (j in Scan(r, q.(me := x)).found <==> j != k && j < Min(q.limit, k + 1 + q.maxMisses)))
        && (IsSlot(Seen(r, missed), q.(me := y), k) <==> forall j :: 0 <= j < k ==> j !in missed)
        && (IsSlot(Seen(r, missed), q.(me := y), k) ==>
              Packed(Change(r, missed, q.(me := y), Some(y), true), q.customer, n))
  {
    hide Walk, Scan, Change, Names, Seen, IsSlot;
    var r := t - {k};
    CloseSlot(t, failed, q, n, k);
    ChangeExact(t, failed, q, None, true);
    ClosedScan(t, q, n, k, x);
    HoleSlot(t, missed, q, n, k, y);
    ChangeExact(r, missed, q.(me := y), Some(y), true);
    RefillPacks(t, q.customer, n, k, y);
  }

  lemma ClosedScan(t: Table, q: Query, n: nat, k: nat, x: Id)
    requires Packed(t, q.customer, n) && k < n && k < q.limit
    ensures forall j :: 0 <= j < n ==>
      (j in Scan(t - {k}, q.(me := x)).found <==> j != k && j < Min(q.limit, k + 1 + q.maxMisses))
  {
    hide Walk, Scan, Names;
    forall j | 0 <= j < n
      ensures Good(t - {k}, q.(me := x), j) <==> j != k
    {
      ClosedGood(t, q, n, k, x, j);
    }
    ScanExact(t - {k}, q.(me := x));
    assert IsFirstBad(t - {k}, q.(me := x), k);
  }

  /** An unread slot is not good. */
  lemma UnreadBad(t: Table, failed: set<nat>, q: Query, j: nat)
    requires j in failed
    ensures !Good(Seen(t, failed), q, j)
  {
  }

  /** What is read of slots before k that are all of different suppliers. */
  lemma ReadGood(t: Table, failed: set<nat>, q: Query, k: nat, j: nat)
    requires j < k && Sole(t, q.customer, j) && forall h :: 0 <= h < k ==> h !in failed
    ensures Good(Seen(t, failed), q, j) && (Own(Seen(t, failed), q, j) <==> Own(t, q, j))
  {
    var seen, s := Seen(t, failed), Supplier(t, q.customer, j);
    HoldsSeen(t, failed, q.customer, j, s);
    forall h | 0 <= h < j
      ensures !Holds(seen, q.customer, h, s)
    {
      assert !Holds(t, q.customer, h, s);
      HoldsSeen(t, failed, q.customer, h, s);
    }
  }

  lemma CloseSlot(t: Table, failed: set<nat>, q: Query, n: nat, k: nat)
    requires Packed(t, q.customer, n) && k < n && k < q.limit && Holds(t, q.customer, k, q.me)
    ensures IsSlot(Seen(t, failed), q, k) <==> forall j :: 0 <= j < k ==> j !in failed
  {
    hide Seen, Sole;
    forall j | 0 <= j < k && j in failed
      ensures !Good(Seen(t, failed), q, j)
    {
      UnreadBad(t, failed, q, j);
    }
    if forall j :: 0 <= j < k ==> j !in failed {
      forall j | 0 <= j < k
        ensures Good(Seen(t, failed), q, j) && !Own(Seen(t, failed), q, j)
      {
        ReadGood(t, failed, q, k, j);
        SoleDiffers(t, q.customer, j, k);
      }
      if k in failed {
        UnreadBad(t, failed, q, k);
      } else {
        HoldsSeen(t, failed, q.customer, k, q.me);
      }
    }
  }

  lemma HoleSlot(t: Table, missed: set<nat>, q: Query, n: nat, k: nat, y: Id)
    requires Packed(t, q.customer, n) && k < n && k < q.limit
    requires forall j :: 0 <= j < n ==> !Holds(t, q.customer, j, y)
    ensures IsSlot(Seen(t - {k}, missed), q.(me := y), k) <==> forall j :: 0 <= j < k ==> j !in missed
  {
    hide Sole;
    var r, qy := t - {k}, q.(me := y);
    forall j | 0 <= j < k && j in missed
      ensures !Good(Seen(r, missed), qy, j)
    {
      UnreadBad(r, missed, qy, j);
    }
    if forall j :: 0 <= j < k ==> j !in missed {
      forall j | 0 <= j < k
        ensures Good(Seen(r, missed), qy, j) && !Own(Seen(r, missed), qy, j)
      {
        SoleErased(t, q.customer, k, j);
        ReadGood(r, missed, qy, k, j);
        ClosedGood(t, q, n, k, y, j);
      }
      UnreadBad(Seen(r, missed), {k}, qy, k);
      assert Seen(Seen(r, missed), {k}) == Seen(r, missed);
    }
  }

  lemma ClosedGood(t: Table, q: Query, n: nat, k: nat, x: Id, j: nat)
    requires Packed(t, q.customer, n) && k < n && j < n
    ensures Good(t - {k}, q.(me := x), j) <==> j != k
    ensures Own(t - {k}, q.(me := x), j) ==> Holds(t, q.customer, j, x)
  {
    if j != k {
      SoleErased(t, q.customer, k, j);
    }
  }

  lemma RefillPacks(t: Table, customer: Id, n: nat, k: nat, y: Id)
    requires Packed(t, customer, n) && k < n && forall j :: 0 <= j < n ==> !Holds(t, customer, j, y)
    ensures Packed((t - {k})[k := Record(customer, y)], customer, n)
  {
    var r := (t - {k})[k := Record(customer, y)];
    forall i | 0 <= i < n
      ensures Sole(r, customer, i)
    {
      if i != k {
        SoleErased(t, customer, k, i);
      }
      forall j | 0 <= j < n
        ensures !Holds(t - {k}, customer, j, y)
      {
        assert !Holds(t, customer, j, y);
      }
      SoleWritten(t - {k}, customer, k, y, i);
      assert Sole(t, customer, i);
    }
  }

  /** Closing takes the supplier's own records out of the table exactly if each
      of them is the slot that closing finds: a hole before it comes first. */
  lemma CloseErases(t: Table, failed: set<nat>, q: Query)
    ensures !Valid(Change(t, failed, q, None, true), q.customer, q.me)
        <==> forall i :: 0 <= i && Own(t, q, i) ==> IsSlot(Seen(t, failed), q, i)
  {
    hide Walk, Change, IsSlot, Seen;
    var r, seen := Change(t, failed, q, None, true), Seen(t, failed);
    ChangeExact(t, failed, q, None, true);
    assert forall i :: 0 <= i ==> (Own(t, q, i) <==> Holds(t, q.customer, i, q.me));
    if NoSlot(seen, q) {
      forall i | 0 <= i && Own(t, q, i)
        ensures !IsSlot(seen, q, i)
      {
        NoSlotIsNoSlot(seen, q, i);
      }
    } else {
      var p :| 0 <= p && IsSlot(seen, q, p);
      forall i | 0 <= i && IsSlot(seen, q, i)
        ensures i == p
      {
        SlotUnique(seen, q, p, i);
      }
      assert forall i :: 0 <= i && Own(t, q, i) && i != p ==> Holds(r, q.customer, i, q.me);
      assert forall i :: 0 <= i && Holds(r, q.customer, i, q.me) ==> Own(t, q, i) && i != p;
    }
  }

  lemma NoSlotIsNoSlot(t: Table, q: Query, i: nat)
    requires NoSlot(t, q)
    ensures !IsSlot(t, q, i)
  {
  }

  /** Such a table: slot 0 empty, the own record in slot 1. */
  lemma CloseMisses(customer: Id, me: Id)
    ensures var t, q := map[1 := Record(customer, me)], Query(customer, me, 100, 3);
      Change(t, {}, q, None, true) == t && Valid(t, customer, me)
  {
    var t, q := map[1 := Record(customer, me)], Query(customer, me, 100, 3);
    SeenAll(t);
    assert Verify(t, q, map[], 0) == Miss;
    assert Holds(t, customer, 1, me);
    assert t - {0} == t;
  }

  /** One failed read is enough to lose another supplier's record. */
  lemma UnreadLost(customer: Id, me: Id, s: Id)
    requires s != me
    ensures var t, q := map[0 := Record(customer, s)], Query(customer, me, 100, 3);
      Valid(t, customer, s) && !Valid(Change(t, {0}, q, Some(me), true), customer, s)
  {
    var t, q := map[0 := Record(customer, s)], Query(customer, me, 100, 3);
    assert IsSlot(Seen(t, {0}), q, 0);
    assert HoldsOnlyAt(t, customer, 0, s);
    assert LosesAt(t, {0}, q, 0, s);
    OthersKept(t, {0}, q, Some(me), true, s);
  }
}
