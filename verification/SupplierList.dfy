/** The positional list of suppliers on values: the hole-filling substitution,
    the removal of dismissed suppliers and the test that ends a hiring phase. */
module SupplierList {
  import opened Sequences

  type Id = string

  // ----- str.strip

  predicate IsSpace(c: char) {
    c in {' ', '\t', '\n', '\r', '\U{000b}', '\U{000c}'}
  }

  function StripLeft(s: string): string {
    if s != [] && IsSpace(s[0]) then StripLeft(s[1..]) else s
  }

  function StripRight(s: string): string {
    if s != [] && IsSpace(s[|s|-1]) then StripRight(s[..|s|-1]) else s
  }

  lemma {:induction false} StripLeftEnds(s: string)
    ensures var r := StripLeft(s); |r| <= |s| && (r == [] || !IsSpace(r[0]))
  {
    if s != [] && IsSpace(s[0]) {
      StripLeftEnds(s[1..]);
    }
  }

  lemma {:induction false} StripRightEnds(s: string)
    ensures var r := StripRight(s);
      |r| <= |s| && (r == [] || (!IsSpace(r[|r|-1]) && r[0] == s[0]))
  {
    if s != [] && IsSpace(s[|s|-1]) {
      StripRightEnds(s[..|s|-1]);
    }
  }

  function Strip(s: string): string {
    StripRight(StripLeft(s))
  }

  /** Nothing is left to strip exactly when neither end is white space. */
  lemma StripDone(s: string)
    ensures Strip(s) == s <==> s == [] || (!IsSpace(s[0]) && !IsSpace(s[|s|-1]))
    ensures Strip(Strip(s)) == Strip(s)
  {
    hide IsSpace;
    StripLeftEnds(s);
    StripRightEnds(StripLeft(s));
  }

  lemma {:induction false} StripLeftParts(s: string) returns (left: string)
    ensures s == left + StripLeft(s) && forall i :: 0 <= i < |left| ==> IsSpace(left[i])
  {
    left := "";
    if s != [] && IsSpace(s[0]) {
      var rest := StripLeftParts(s[1..]);
      left := [s[0]] + rest;
    }
  }

  lemma {:induction false} StripRightParts(s: string) returns (right: string)
    ensures s == StripRight(s) + right && forall i :: 0 <= i < |right| ==> IsSpace(right[i])
  {
    right := "";
    if s != [] && IsSpace(s[|s|-1]) {
      var rest := StripRightParts(s[..|s|-1]);
      right := rest + [s[|s|-1]];
    }
  }

  /** What is stripped is white space at the two ends, and nothing else. */
  lemma StripParts(s: string) returns (left: string, right: string)
    ensures s == left + Strip(s) + right
    ensures forall i :: 0 <= i < |left| ==> left[i] in " \t\n\r\U{000b}\U{000c}"
    ensures forall i :: 0 <= i < |right| ==> right[i] in " \t\n\r\U{000b}\U{000c}"
  {
    left := StripLeftParts(s);
    right := StripRightParts(StripLeft(s));
    assert left + (Strip(s) + right) == left + Strip(s) + right;
  }

  function StripAll(list: seq<Id>): (r: seq<Id>)
    ensures |r| == |list| && forall i :: 0 <= i < |list| ==> r[i] == Strip(list[i])
  {
    seq(|list|, i requires 0 <= i < |list| => Strip(list[i]))
  }

  ghost predicate Stripped(list: seq<Id>) {
    forall i :: 0 <= i < |list| ==> Strip(list[i]) == list[i]
  }

  lemma StripAllStripped(list: seq<Id>)
    ensures Stripped(StripAll(list))
    ensures Stripped(list) ==> StripAll(list) == list
  {
    forall i | 0 <= i < |list|
      ensures Strip(Strip(list[i])) == Strip(list[i])
    {
      StripDone(list[i]);
    }
  }

  // ----- substitution and removal

  /** A position that the next supplier may take: a hole, a dismissed supplier. */
  predicate Open(list: seq<Id>, dismissed: seq<Id>, i: nat) {
    i >= |list| || Strip(list[i]) == "" || list[i] in dismissed
  }

  function FirstOpen(list: seq<Id>, dismissed: seq<Id>, from: nat := 0): (p: nat)
    requires from <= |list|
    ensures from <= p <= |list| && Open(list, dismissed, p)
    ensures forall i :: from <= i < p ==> !Open(list, dismissed, i)
    decreases |list| - from
  {
    if Open(list, dismissed, from) then from else FirstOpen(list, dismissed, from + 1)
  }

  /** doSubstituteSupplier and update_suppliers. */
  function Substitute(list: seq<Id>, dismissed: seq<Id>, id: Id): seq<Id> {
    var p := FirstOpen(list, dismissed);
    StripAll(if p < |list| then list[p := id] else list + [id])
  }

  function Take(list: seq<Id>, n: nat): seq<Id> {
    if n < |list| then list[..n] else list
  }

  /** list[list.index(id)] = '' */
  function Blank(list: seq<Id>, id: Id): (r: seq<Id>)
    ensures |r| == |list|
  {
    if list == [] then []
    else if list[0] == id then [""] + list[1..]
    else [list[0]] + Blank(list[1..], id)
  }

  function BlankAll(list: seq<Id>, dismissed: seq<Id>): (r: seq<Id>)
    ensures |r| == |list|
  {
    if dismissed == [] then list else Blank(BlankAll(list, dismissed[..|dismissed|-1]), dismissed[|dismissed|-1])
  }

  /** doRemoveSuppliers and update_suppliers. */
  function Remove(list: seq<Id>, dismissed: seq<Id>, desired: nat): seq<Id> {
    StripAll(Take(BlankAll(list, dismissed), desired))
  }

  /** Non-empty suppliers are pairwise distinct. */
  ghost predicate Distinct(list: seq<Id>) {
    forall i, j :: 0 <= i < j < |list| && list[i] == list[j] ==> list[i] == ""
  }

  lemma {:induction false} BlankAt(list: seq<Id>, id: Id, i: nat)
    requires Distinct(list) && i < |list|
    ensures Blank(list, id)[i] == if list[i] == id then "" else list[i]
  {
    if list[0] == id {
      if i > 0 && list[i] == id {
        assert list[0] == list[i];
      }
    } else if i > 0 {
      BlankAt(list[1..], id, i - 1);
    }
  }

  lemma {:induction false} BlankAllAt(list: seq<Id>, dismissed: seq<Id>)
    requires Distinct(list)
    ensures Distinct(BlankAll(list, dismissed))
    ensures forall i :: 0 <= i < |list| ==>
      BlankAll(list, dismissed)[i] == if list[i] in dismissed then "" else list[i]
    decreases |dismissed|
  {
    if dismissed != [] {
      var rest, last := dismissed[..|dismissed|-1], dismissed[|dismissed|-1];
      assert dismissed == rest + [last];
      BlankAllAt(list, rest);
      forall i | 0 <= i < |list|
        ensures BlankAll(list, dismissed)[i] == if list[i] in dismissed then "" else list[i]
      {
        BlankAt(BlankAll(list, rest), last, i);
      }
    }
  }

  /** Removal blanks exactly the dismissed suppliers, moves nobody, and cuts the
      list to the desired length. */
  lemma RemoveAt(list: seq<Id>, dismissed: seq<Id>, desired: nat)
    requires Distinct(list) && Stripped(list)
    ensures var r := Remove(list, dismissed, desired);
      && |r| == (if desired < |list| then desired else |list|)
      && (forall i :: 0 <= i < |r| ==> r[i] == if list[i] in dismissed then "" else list[i])
      && Distinct(r) && Stripped(r)
  {
    hide Strip;
    BlankAllAt(list, dismissed);
    StripDone("");
    StripAllStripped(Take(BlankAll(list, dismissed), desired));
  }

  /** Substitution changes one position only, the first open one. */
  lemma SubstituteAt(list: seq<Id>, dismissed: seq<Id>, id: Id)
    requires Stripped(list) && Strip(id) == id
    ensures var p, r := FirstOpen(list, dismissed), Substitute(list, dismissed, id);
      && r == (if p < |list| then list[p := id] else list + [id])
      && Stripped(r) && (Distinct(list) && id !in list ==> Distinct(r))
  {
    hide Strip;
    var p := FirstOpen(list, dismissed);
    StripAllStripped(if p < |list| then list[p := id] else list + [id]);
  }

  // ----- counting

  /** Distinct suppliers in the first n positions that are not dismissed. */
  function Healthy(list: seq<Id>, dismissed: seq<Id>, n: nat): set<Id> {
    set id | id in Take(list, n) && id != "" && id !in dismissed
  }

  function OpenCount(list: seq<Id>, dismissed: seq<Id>, n: nat): nat {
    if n == 0 then 0
    else OpenCount(list, dismissed, n - 1) + if Open(list, dismissed, n - 1) then 1 else 0
  }

  function Count(list: seq<Id>, id: Id): nat {
    if list == [] then 0 else Count(list[..|list|-1], id) + if list[|list|-1] == id then 1 else 0
  }

  /** isStillNeeded */
  function StillNeeded(list: seq<Id>, dismissed: seq<Id>, desired: nat, id: Id): bool {
    id in list ||
    var needed := Take(list, desired);
    |Elements(needed) + {id} - Elements(dismissed)| - Count(needed, "") < desired
  }

  /** isMoreNeeded */
  function MoreNeeded(list: seq<Id>, dismissed: seq<Id>, desired: nat): bool {
    "" in list || |Elements(list) - Elements(dismissed)| < desired
  }

  /** The supplier the finder brings is new to the list and welcome. */
  ghost predicate Fresh(list: seq<Id>, dismissed: seq<Id>, id: Id) {
    id != "" && Strip(id) == id && id !in list && id !in dismissed
  }

  /** Nobody healthy stands twice in the first n positions. */
  ghost predicate HealthyOnce(list: seq<Id>, dismissed: seq<Id>, n: nat) {
    forall i, j :: 0 <= i < j < n && !Open(list, dismissed, i) && !Open(list, dismissed, j) ==> list[i] != list[j]
  }

  /** How many of the first n positions repeat a healthy supplier. */
  function RepeatCount(list: seq<Id>, dismissed: seq<Id>, n: nat): nat {
    if n == 0 then 0
    else
      RepeatCount(list, dismissed, n - 1) +
      if !Open(list, dismissed, n - 1) && list[n-1] in Take(list, n - 1) then 1 else 0
  }

  lemma HealthyNext(list: seq<Id>, dismissed: seq<Id>, n: nat)
    requires Stripped(list)
    ensures Open(list, dismissed, n) ==> Healthy(list, dismissed, n + 1) == Healthy(list, dismissed, n)
    ensures !Open(list, dismissed, n) ==>
              && Healthy(list, dismissed, n + 1) == Healthy(list, dismissed, n) + {list[n]}
              && (list[n] in Healthy(list, dismissed, n) <==> list[n] in Take(list, n))
  {
    hide Strip;
    StripDone("");
    if n < |list| {
      assert Take(list, n + 1) == Take(list, n) + [list[n]];
    }
  }

  lemma HealthyOnceNext(list: seq<Id>, dismissed: seq<Id>, n: nat)
    ensures HealthyOnce(list, dismissed, n + 1) <==>
      HealthyOnce(list, dismissed, n) && (Open(list, dismissed, n) || list[n] !in Take(list, n))
  {
    hide Strip;
    if !Open(list, dismissed, n) && list[n] in Take(list, n) {
      var k :| 0 <= k < n && list[k] == list[n];
      assert !Open(list, dismissed, k);
    }
  }

  /** Healthy suppliers, open positions and repetitions share the first n
      positions; none is a repetition if nobody healthy stands there twice. */
  lemma {:induction false} Shares(list: seq<Id>, dismissed: seq<Id>, n: nat)
    requires Stripped(list)
    ensures |Healthy(list, dismissed, n)| + OpenCount(list, dismissed, n) + RepeatCount(list, dismissed, n) == n
    ensures RepeatCount(list, dismissed, n) == 0 <==> HealthyOnce(list, dismissed, n)
  {
    hide Strip, Stripped, HealthyOnce, Healthy;
    if n > 0 {
      Shares(list, dismissed, n - 1);
      HealthyNext(list, dismissed, n - 1);
      HealthyOnceNext(list, dismissed, n - 1);
    } else {
      NobodyYet(list, dismissed);
    }
  }

  lemma NobodyYet(list: seq<Id>, dismissed: seq<Id>)
    ensures Healthy(list, dismissed, 0) == {} && HealthyOnce(list, dismissed, 0)
  {
    hide Strip;
  }

  lemma {:induction false} HolesBound(list: seq<Id>, dismissed: seq<Id>, n: nat)
    ensures Count(Take(list, n), "") <= OpenCount(list, dismissed, n)
    ensures Count(Take(list, n), "") > 0 <==> "" in Take(list, n)
  {
    StripDone("");
    if n > 0 {
      HolesBound(list, dismissed, n - 1);
      if n <= |list| {
        assert Take(list, n) == Take(list, n - 1) + [list[n-1]];
        assert Take(list, n)[..n-1] == Take(list, n - 1);
      } else {
        assert Take(list, n) == Take(list, n - 1);
      }
    }
  }

  /** What the test that ends a hiring phase computes: the holes it subtracts
      never matter, unless the empty name itself is dismissed. */
  lemma StillNeededExact(list: seq<Id>, dismissed: seq<Id>, desired: nat, id: Id)
    requires Stripped(list) && Fresh(list, dismissed, id)
    ensures var k := |Healthy(list, dismissed, desired)|;
      StillNeeded(list, dismissed, desired, id) <==>
        if "" in dismissed then k + 1 - Count(Take(list, desired), "") < desired else k + 1 < desired
  {
    hide Strip;
    var needed, h := Take(list, desired), Healthy(list, dismissed, desired);
    Shares(list, dismissed, desired);
    HolesBound(list, dismissed, desired);
    var s := Elements(needed) + {id} - Elements(dismissed);
    if "" in needed && "" !in dismissed {
      assert s == h + {id} + {""};
    } else {
      assert s == h + {id};
    }
    assert |h + {id}| == |h| + 1;
  }

  lemma {:induction false} OpenCountUpdate(list: seq<Id>, r: seq<Id>, dismissed: seq<Id>, p: nat, n: nat)
    requires p <= |list| && |r| >= |list| && |r| == (if p < |list| then |list| else |list| + 1)
    requires Open(list, dismissed, p) && !Open(r, dismissed, p)
    requires forall i :: 0 <= i < |list| && i != p ==> r[i] == list[i]
    ensures OpenCount(r, dismissed, n) + (if p < n then 1 else 0) == OpenCount(list, dismissed, n)
  {
    if n > 0 {
      OpenCountUpdate(list, r, dismissed, p, n - 1);
    }
  }

  lemma {:induction false} OpenCountZero(list: seq<Id>, dismissed: seq<Id>, n: nat)
    ensures OpenCount(list, dismissed, n) == 0 <==> forall i :: 0 <= i < n ==> !Open(list, dismissed, i)
  {
    if n > 0 {
      OpenCountZero(list, dismissed, n - 1);
    }
  }

  /** One hire turns an open position among the desired ones into a healthy
      supplier, if there is one, and otherwise changes neither count. */
  lemma HireCounts(list: seq<Id>, dismissed: seq<Id>, desired: nat, id: Id)
    requires Stripped(list) && Fresh(list, dismissed, id)
    ensures var r := Substitute(list, dismissed, id);
      var filled := if OpenCount(list, dismissed, desired) > 0 then 1 else 0;
      && OpenCount(r, dismissed, desired) == OpenCount(list, dismissed, desired) - filled
      && |Healthy(r, dismissed, desired)| == |Healthy(list, dismissed, desired)| + filled
  {
    hide Strip;
    var p, r := FirstOpen(list, dismissed), Substitute(list, dismissed, id);
    SubstituteAt(list, dismissed, id);
    OpenCountZero(list, dismissed, desired);
    OpenCountUpdate(list, r, dismissed, p, desired);
    StripDone("");
    var h := Healthy(list, dismissed, desired);
    if p < desired {
      HealthyGains(list, r, dismissed, desired, p, id);
    } else {
      assert Take(r, desired) == Take(list, desired);
    }
  }

  lemma HealthyGains(list: seq<Id>, r: seq<Id>, dismissed: seq<Id>, desired: nat, p: nat, id: Id)
    requires Stripped(list) && Fresh(list, dismissed, id) && Open(list, dismissed, p) && p <= |list| && p < desired
    requires r == (if p < |list| then list[p := id] else list + [id])
    ensures Healthy(r, dismissed, desired) == Healthy(list, dismissed, desired) + {id}
    ensures id !in Healthy(list, dismissed, desired)
  {
    hide Strip;
    forall x | x in Healthy(list, dismissed, desired)
      ensures x in Healthy(r, dismissed, desired)
    {
      var k :| 0 <= k < |list| && k < desired && list[k] == x;
      assert Take(r, desired)[k] == x;
    }
    assert Take(r, desired)[p] == id;
  }
}
