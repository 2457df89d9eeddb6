/** Direct messages: one conversation per set of participants, over any sequence of calls.  A user id
    arrives as a string; the database compares the ObjectId that the string denotes. */
module DirectMessageModel {
  import opened Base

  /** `participants` and `closedBy` hold ObjectIds, printed in lower case; the position in the list of
      conversations is the id of the conversation. */
  datatype Dm = Dm(workspace: nat, participants: seq<string>, closedBy: seq<string>, isGroup: bool)

  datatype Error = TooFew | TooMany | BadId | NotAMember | DmNotFound

  predicate HexDigit(c: char) { '0' <= c <= '9' || 'a' <= c <= 'f' || 'A' <= c <= 'F' }

  predicate IsObjectId(id: string) { |id| == 24 && forall i :: 0 <= i < |id| ==> HexDigit(id[i]) }

  function Lower(c: char): char { if 'A' <= c <= 'F' then c - 'A' + 'a' else c }

  /** The ObjectId that a string denotes. */
  function Cast(id: string): string { seq(|id|, i requires 0 <= i < |id| => Lower(id[i])) }

  function CastAll(ids: seq<string>): seq<string> { seq(|ids|, i requires 0 <= i < |ids| => Cast(ids[i])) }

  function Elems(xs: seq<string>): set<string> { set x | x in xs }

  predicate NoDup(xs: seq<string>) { forall i, j :: 0 <= i < j < |xs| ==> xs[i] != xs[j] }

  /** Insertion order, as in a JavaScript Set. */
  function Distinct(xs: seq<string>): seq<string> {
    if xs == [] then []
    else
      var front := Distinct(xs[..|xs| - 1]);
      if xs[|xs| - 1] in front then front else front + [xs[|xs| - 1]]
  }

  // ----- Sorting strings ----------------------------------------------------------------------------

  predicate Less(a: string, b: string) {
    b != "" && (a == "" || a[0] < b[0] || (a[0] == b[0] && Less(a[1..], b[1..])))
  }

  predicate Sorted(xs: seq<string>) { forall i, j :: 0 <= i < j < |xs| ==> Less(xs[i], xs[j]) }

  function Insert(x: string, xs: seq<string>): seq<string> {
    if xs == [] || Less(x, xs[0]) then [x] + xs else [xs[0]] + Insert(x, xs[1..])
  }

  function Sort(xs: seq<string>): seq<string> {
    if xs == [] then [] else Insert(xs[0], Sort(xs[1..]))
  }

  // ----- The operations -----------------------------------------------------------------------------

  function All(initiator: string, ids: seq<string>): seq<string> { Distinct([initiator] + ids) }

  /** `assertMember` on one after the other. */
  function CheckMembers(members: set<string>, ids: seq<string>): Option<Error> {
    if ids == [] then None
    else if !IsObjectId(ids[0]) then Some(BadId)
    else if Cast(ids[0]) !in members then Some(NotAMember)
    else CheckMembers(members, ids[1..])
  }

  /** { workspaceId, participants: { $all, $size } } */
  predicate Matches(d: Dm, w: nat, wanted: seq<string>) {
    d.workspace == w && |d.participants| == |wanted| && forall x :: x in wanted ==> x in d.participants
  }

  function Find(dms: seq<Dm>, w: nat, wanted: seq<string>, from: nat): Option<nat>
    decreases |dms| - from
  {
    if from >= |dms| then None
    else if Matches(dms[from], w, wanted) then Some(from)
    else Find(dms, w, wanted, from + 1)
  }

  function Without(xs: seq<string>, x: string): seq<string> {
    if xs == [] then [] else (if xs[0] == x then [] else [xs[0]]) + Without(xs[1..], x)
  }

  function NewDm(w: nat, wanted: seq<string>): Dm { Dm(w, wanted, [], |wanted| > 2) }

  function GetOrCreate(dms: seq<Dm>, w: nat, members: set<string>, initiator: string, ids: seq<string>): (seq<Dm>, Result<nat, Error>) {
    var all := All(initiator, ids);
    if |all| < 2 then (dms, Err(TooFew))
    else if |all| > 8 then (dms, Err(TooMany))
    else if CheckMembers(members, all).Some? then (dms, Err(CheckMembers(members, all).value))
    else
      var wanted := CastAll(Sort(all));
      match Find(dms, w, wanted, 0)
      case Some(i) =>
        if i < |dms| then (dms[i := dms[i].(closedBy := Without(dms[i].closedBy, initiator))], Ok(i))
        else (dms, Ok(i))
      case None => (dms + [NewDm(w, wanted)], Ok(|dms|))
  }

  function Close(dms: seq<Dm>, w: nat, id: nat, user: string): (seq<Dm>, Option<Error>) {
    if id >= |dms| || dms[id].workspace != w || Cast(user) !in dms[id].participants then (dms, Some(DmNotFound))
    else if user in dms[id].closedBy then (dms, None)
    else (dms[id := dms[id].(closedBy := dms[id].closedBy + [Cast(user)])], None)
  }

  /** `members` is the membership of the workspace at the time of the call. */
  datatype Op =
    | Open(workspace: nat, members: set<string>, initiator: string, ids: seq<string>)
    | Hide(workspace: nat, dm: nat, user: string)

  function Apply(dms: seq<Dm>, op: Op): seq<Dm> {
    match op
    case Open(w, members, initiator, ids) => GetOrCreate(dms, w, members, initiator, ids).0
    case Hide(w, id, user) => Close(dms, w, id, user).0
  }

  function Run(ops: seq<Op>): seq<Dm> {
    if ops == [] then [] else Apply(Run(ops[..|ops| - 1]), ops[|ops| - 1])
  }

  // ----- What the decisions are -----------------------------------------------------------------------

  /** An ObjectId is 24 hexadecimal digits; it is printed in lower case. */
  lemma CastIff(c: char)
    ensures HexDigit(c) <==> c in "0123456789abcdefABCDEF"
    ensures Lower(c) == match c
      case 'A' => 'a'
      case 'B' => 'b'
      case 'C' => 'c'
      case 'D' => 'd'
      case 'E' => 'e'
      case 'F' => 'f'
      case _ => c
  {}

  /** The first id of the list that is not the id of a member. */
  predicate FirstUnfit(members: set<string>, ids: seq<string>, k: nat) {
    && k < |ids| && !(IsObjectId(ids[k]) && Cast(ids[k]) in members)
    && forall j :: 0 <= j < k ==> IsObjectId(ids[j]) && Cast(ids[j]) in members
  }

  lemma {:induction false} CheckMembersIff(members: set<string>, ids: seq<string>)
    ensures CheckMembers(members, ids) == None <==> forall id :: id in ids ==> IsObjectId(id) && Cast(id) in members
    ensures forall k: nat :: FirstUnfit(members, ids, k) ==> CheckMembers(members, ids) == Some(if IsObjectId(ids[k]) then NotAMember else BadId)
  {
    if ids != [] {
      var rest := ids[1..];
      CheckMembersIff(members, rest);
      assert forall id :: id in ids <==> id == ids[0] || id in rest;
      forall k: nat | FirstUnfit(members, ids, k) && k > 0 ensures FirstUnfit(members, rest, k - 1) {
        assert rest[k - 1] == ids[k];
        forall j | 0 <= j < k - 1 ensures IsObjectId(rest[j]) && Cast(rest[j]) in members { assert rest[j] == ids[j + 1]; }
      }
    }
  }

  lemma {:induction false} CheckMembersAppend(members: set<string>, a: seq<string>, b: seq<string>)
    ensures CheckMembers(members, a + b) == if CheckMembers(members, a).Some? then CheckMembers(members, a) else CheckMembers(members, b)
  {
    if a == [] {
      assert a + b == b;
    } else {
      assert (a + b)[1..] == a[1..] + b;
      CheckMembersAppend(members, a[1..], b);
    }
  }

  /** Leaving out repetitions does not change the first error. */
  lemma {:induction false} CheckDistinct(members: set<string>, ids: seq<string>)
    ensures CheckMembers(members, Distinct(ids)) == CheckMembers(members, ids)
  {
    if ids != [] {
      var front, last := ids[..|ids| - 1], ids[|ids| - 1];
      CheckDistinct(members, front);
      assert ids == front + [last];
      CheckMembersAppend(members, front, [last]);
      if last in Distinct(front) {
        CheckMembersIff(members, Distinct(front));
        assert [last][1..] == [];
      } else {
        CheckMembersAppend(members, Distinct(front), [last]);
      }
    }
  }

  /** Exactly the occurrences of one id are taken out. */
  lemma {:induction false} WithoutIff(xs: seq<string>, x: string)
    ensures x !in Without(xs, x)
    ensures forall y :: y != x ==> multiset(Without(xs, x))[y] == multiset(xs)[y]
  {
    if xs != [] {
      WithoutIff(xs[1..], x);
      assert xs == [xs[0]] + xs[1..];
    }
  }

  /** The order of strings: a proper prefix comes first, and otherwise the first difference decides. */
  lemma {:induction false} LessIff(a: string, b: string)
    ensures Less(a, b) <==> (a < b || exists k: nat :: Differs(a, b, k) && a[k] < b[k])
  {
    if b != "" && a != "" {
      if a[0] == b[0] {
        LessIff(a[1..], b[1..]);
        assert a == [a[0]] + a[1..] && b == [b[0]] + b[1..];
        assert a < b <==> a[1..] < b[1..];
        forall k: nat | Differs(a, b, k) ensures k > 0 && Differs(a[1..], b[1..], k - 1) {
          assert a[..k][0] == a[0];
          assert a[1..][..k - 1] == a[..k][1..] && b[1..][..k - 1] == b[..k][1..];
        }
        forall k: nat | Differs(a[1..], b[1..], k) ensures Differs(a, b, k + 1) {
          assert a[..k + 1] == [a[0]] + a[1..][..k] && b[..k + 1] == [b[0]] + b[1..][..k];
        }
      } else {
        assert Differs(a, b, 0);
        forall k: nat | Differs(a, b, k) ensures k == 0 { SameFirst(a, b, k); }
      }
    }
  }

  lemma SameFirst(a: string, b: string, k: nat)
    requires Differs(a, b, k)
    ensures k > 0 ==> a[0] == b[0]
  {
    if k > 0 { assert a[..k][0] == a[0] && b[..k][0] == b[0]; }
  }

  /** Position `k` is that of the first difference. */
  predicate Differs(a: string, b: string, k: nat) { k < |a| && k < |b| && a[..k] == b[..k] && a[k] != b[k] }

  // ----- Sequences and sets -------------------------------------------------------------------------

  lemma {:induction false} DistinctOk(xs: seq<string>)
    ensures NoDup(Distinct(xs)) && Elems(Distinct(xs)) == Elems(xs)
  {
    if xs != [] {
      var front := xs[..|xs| - 1];
      DistinctOk(front);
      assert xs == front + [xs[|xs| - 1]];
      assert forall x :: x in Distinct(front) <==> x in Elems(Distinct(front));
      assert forall x :: x in front <==> x in Elems(front);
    }
  }

  /** Distinct members are as many as their set has elements. */
  lemma {:induction false} ElemsSize(xs: seq<string>)
    requires NoDup(xs)
    ensures |Elems(xs)| == |xs|
  {
    if xs == [] {
      assert Elems(xs) == {};
    } else {
      var n := |xs| - 1;
      ElemsSize(xs[..n]);
      assert xs == xs[..n] + [xs[n]];
      assert Elems(xs) == Elems(xs[..n]) + {xs[n]};
      assert xs[n] !in Elems(xs[..n]);
    }
  }

  lemma SubsetEqual(a: set<string>, b: set<string>)
    requires a <= b && |a| >= |b|
    ensures a == b
  {
    if a != b {
      var x :| x in b && x !in a;
      assert |b - {x}| < |b|;
      SubsetSize(a, b - {x});
    }
  }

  lemma {:induction false} SubsetSize(a: set<string>, b: set<string>)
    requires a <= b
    ensures |a| <= |b|
  {
    if a != {} {
      var x :| x in a;
      SubsetSize(a - {x}, b - {x});
    }
  }

  lemma {:induction false} LessIrreflexive(a: string)
    ensures !Less(a, a)
  {
    if a != "" { LessIrreflexive(a[1..]); }
  }

  lemma {:induction false} LessTotal(a: string, b: string)
    ensures a == b || Less(a, b) || Less(b, a)
    ensures !(Less(a, b) && Less(b, a)) && !Less(a, a)
    decreases |a| + |b|
  {
    LessIrreflexive(a);
    if a != "" && b != "" {
      LessTotal(a[1..], b[1..]);
      assert a == [a[0]] + a[1..] && b == [b[0]] + b[1..];
    }
  }

  lemma {:induction false} LessTrans(a: string, b: string, c: string)
    requires Less(a, b) && Less(b, c)
    ensures Less(a, c)
  {
    if a != "" && a[0] == b[0] && b[0] == c[0] { LessTrans(a[1..], b[1..], c[1..]); }
  }

  lemma {:induction false} InsertOk(x: string, xs: seq<string>)
    requires Sorted(xs) && x !in xs
    ensures Sorted(Insert(x, xs)) && |Insert(x, xs)| == |xs| + 1
    ensures forall y :: y in Insert(x, xs) <==> y == x || y in xs
  {
    if xs != [] {
      LessTotal(x, xs[0]);
      if Less(x, xs[0]) {
        forall j | 0 <= j < |xs| ensures Less(x, xs[j]) { if j > 0 { LessTrans(x, xs[0], xs[j]); } }
      } else {
        var rest := Insert(x, xs[1..]);
        InsertOk(x, xs[1..]);
        assert xs == [xs[0]] + xs[1..];
        forall j | 0 <= j < |rest| ensures Less(xs[0], rest[j]) { assert rest[j] in rest; }
      }
    }
  }

  lemma {:induction false} SortOk(xs: seq<string>)
    requires NoDup(xs)
    ensures Sorted(Sort(xs)) && |Sort(xs)| == |xs| && Elems(Sort(xs)) == Elems(xs)
  {
    if xs != [] {
      SortOk(xs[1..]);
      var rest := Sort(xs[1..]);
      assert xs == [xs[0]] + xs[1..];
      assert xs[0] !in Elems(xs[1..]);
      assert forall y :: y in rest <==> y in Elems(rest);
      InsertOk(xs[0], rest);
    }
  }

  lemma SortedNoDup(xs: seq<string>)
    requires Sorted(xs)
    ensures NoDup(xs)
  {
    forall i, j | 0 <= i < j < |xs| ensures xs[i] != xs[j] { LessTotal(xs[i], xs[j]); }
  }

  lemma NoElems(xs: seq<string>)
    ensures Elems(xs) == {} <==> xs == []
  {
    if xs != [] { assert xs[0] in Elems(xs); }
  }

  /** There is only one way to sort a set. */
  lemma {:induction false} SortedUnique(a: seq<string>, b: seq<string>)
    requires Sorted(a) && Sorted(b) && Elems(a) == Elems(b)
    ensures a == b
  {
    if a == [] {
      NoElems(a);
      NoElems(b);
    } else {
      assert a[0] in Elems(b);
      assert b != [];
      assert b[0] in Elems(a);
      var k :| 0 <= k < |b| && b[k] == a[0];
      var m :| 0 <= m < |a| && a[m] == b[0];
      LessTotal(a[0], b[0]);
      assert a[0] == b[0];
      SortedNoDup(a);
      SortedNoDup(b);
      assert Elems(a[1..]) == Elems(a) - {a[0]};
      assert Elems(b[1..]) == Elems(b) - {b[0]};
      SortedUnique(a[1..], b[1..]);
      assert a == [a[0]] + a[1..] && b == [b[0]] + b[1..];
    }
  }

  // ----- The conversations over a whole run ---------------------------------------------------------

  /** The ObjectIds that a call names. */
  function Wanted(initiator: string, ids: seq<string>): set<string> { Elems(CastAll([initiator] + ids)) }

  /** No user is named by two different spellings. */
  predicate Unambiguous(initiator: string, ids: seq<string>) { NoDup(CastAll(All(initiator, ids))) }

  /** Ids spelled the way the service itself prints them. */
  predicate Printed(initiator: string, ids: seq<string>) { forall x :: x in [initiator] + ids ==> Cast(x) == x }

  predicate DmOk(d: Dm) { NoDup(d.participants) && 2 <= |d.participants| <= 8 && (d.isGroup <==> |d.participants| > 2) }

  /** Two conversations of one workspace differ in their participants. */
  predicate Apart(a: Dm, b: Dm) { a.workspace == b.workspace ==> Elems(a.participants) != Elems(b.participants) }

  predicate Inv(dms: seq<Dm>) {
    && (forall i :: 0 <= i < |dms| ==> DmOk(dms[i]))
    && (forall i, j :: 0 <= i < j < |dms| ==> Apart(dms[i], dms[j]))
  }

  lemma CastElems(xs: seq<string>, ys: seq<string>)
    requires Elems(xs) == Elems(ys)
    ensures Elems(CastAll(xs)) <= Elems(CastAll(ys))
  {
    forall c | c in CastAll(xs) ensures c in CastAll(ys) {
      var i :| 0 <= i < |xs| && CastAll(xs)[i] == c;
      assert xs[i] in Elems(ys);
      var j :| 0 <= j < |ys| && ys[j] == xs[i];
      assert CastAll(ys)[j] == c;
    }
  }

  /** The list looked up names exactly the wanted users, each once if and only if no spelling differs. */
  lemma LookupList(initiator: string, ids: seq<string>)
    ensures var all := All(initiator, ids); var wanted := CastAll(Sort(all));
      && Sorted(Sort(all)) && |wanted| == |all|
      && Elems(wanted) == Wanted(initiator, ids)
      && (NoDup(wanted) <==> Unambiguous(initiator, ids))
  {
    var all := All(initiator, ids);
    DistinctOk([initiator] + ids);
    SortOk(all);
    CastElems(all, [initiator] + ids);
    CastElems([initiator] + ids, all);
    CastElems(Sort(all), all);
    CastElems(all, Sort(all));
    assert Elems(CastAll(all)) == Elems(CastAll(Sort(all)));
    NoDupSize(CastAll(all));
    NoDupSize(CastAll(Sort(all)));
  }

  lemma {:induction false} NoDupSize(xs: seq<string>)
    ensures NoDup(xs) <==> |Elems(xs)| == |xs|
  {
    if NoDup(xs) {
      ElemsSize(xs);
    } else {
      var i, j :| 0 <= i < j < |xs| && xs[i] == xs[j];
      var shorter := xs[..j] + xs[j + 1..];
      assert forall x :: x in xs ==> x in shorter by {
        forall x | x in xs ensures x in shorter {
          var k :| 0 <= k < |xs| && xs[k] == x;
          if k < j { assert shorter[k] == x; } else if k > j { assert shorter[k - 1] == x; } else { assert shorter[i] == x; }
        }
      }
      assert Elems(shorter) == Elems(xs);
      ElemsBound(shorter);
    }
  }

  lemma {:induction false} ElemsBound(xs: seq<string>)
    ensures |Elems(xs)| <= |xs|
  {
    if xs == [] {
      assert Elems(xs) == {};
    } else {
      var n := |xs| - 1;
      ElemsBound(xs[..n]);
      assert xs == xs[..n] + [xs[n]];
      assert Elems(xs) == Elems(xs[..n]) + {xs[n]};
    }
  }

  lemma {:induction false} FindOk(dms: seq<Dm>, w: nat, wanted: seq<string>, from: nat)
    requires from <= |dms|
    ensures var r := Find(dms, w, wanted, from);
      && (r.Some? ==> from <= r.value < |dms| && Matches(dms[r.value], w, wanted))
      && (r.None? ==> forall i :: from <= i < |dms| ==> !Matches(dms[i], w, wanted))
    decreases |dms| - from
  {
    if from < |dms| && !Matches(dms[from], w, wanted) { FindOk(dms, w, wanted, from + 1); }
  }

  /** A match of a list without repetitions has exactly its participants. */
  lemma MatchExact(d: Dm, w: nat, wanted: seq<string>)
    requires DmOk(d) && NoDup(wanted)
    ensures Matches(d, w, wanted) <==> d.workspace == w && Elems(d.participants) == Elems(wanted)
  {
    ElemsSize(d.participants);
    ElemsSize(wanted);
    if Matches(d, w, wanted) { SubsetEqual(Elems(wanted), Elems(d.participants)); }
    if d.workspace == w && Elems(d.participants) == Elems(wanted) {
      forall x | x in wanted ensures x in d.participants { assert x in Elems(wanted); }
    }
  }

  /** The conversation has as many participants as there are different ids, and every id among them. */
  predicate Between(d: Dm, w: nat, given: seq<string>) {
    d.workspace == w && |d.participants| == |Elems(given)| && forall id :: id in given ==> Cast(id) in d.participants
  }

  /** What one call does, for any list of ids: the number of ids, then the first unfit one, refuse; otherwise a
      conversation between them is reopened for the initiator, or a new one is created when there is none. */
  ghost predicate Opened(dms: seq<Dm>, dms': seq<Dm>, r: Result<nat, Error>, w: nat, members: set<string>, initiator: string, ids: seq<string>) {
    var given := [initiator] + ids;
    var n := |Elems(given)|;
    && (n < 2 ==> r == Err(TooFew))
    && (n > 8 ==> r == Err(TooMany))
    && (2 <= n <= 8 ==> forall k: nat :: FirstUnfit(members, given, k) ==> r == Err(if IsObjectId(given[k]) then NotAMember else BadId))
    && (2 <= n <= 8 && (forall id :: id in given ==> IsObjectId(id) && Cast(id) in members) ==> r.Ok?)
    && (r.Err? ==> dms' == dms)
    && (r.Ok? ==> r.value < |dms'| && Between(dms'[r.value], w, given))
    && (r.Ok? && r.value < |dms| ==> Reopened(dms, dms', r.value, initiator))
    && (r.Ok? && r.value >= |dms| ==>
          && (forall i :: 0 <= i < |dms| ==> !Between(dms[i], w, given))
          && dms' == dms + [Dm(w, dms'[r.value].participants, [], n > 2)] && r.value == |dms|)
  }

  /** Nothing changes but that the initiator is no longer among those who have closed it. */
  ghost predicate Reopened(dms: seq<Dm>, dms': seq<Dm>, i: nat, initiator: string)
    requires i < |dms|
  {
    && |dms'| == |dms| && dms' == dms[i := dms[i].(closedBy := dms'[i].closedBy)] && initiator !in dms'[i].closedBy
    && forall y :: y != initiator ==> multiset(dms'[i].closedBy)[y] == multiset(dms[i].closedBy)[y]
  }

  lemma MatchesBetween(d: Dm, w: nat, initiator: string, ids: seq<string>)
    ensures Matches(d, w, CastAll(Sort(All(initiator, ids)))) <==> Between(d, w, [initiator] + ids)
  {
    var given, all := [initiator] + ids, All(initiator, ids);
    var wanted := CastAll(Sort(all));
    LookupList(initiator, ids);
    DistinctOk(given);
    ElemsSize(all);
    forall x ensures x in wanted <==> x in CastAll(given) { assert x in Elems(wanted) <==> x in Elems(CastAll(given)); }
    if forall id :: id in given ==> Cast(id) in d.participants {
      forall x | x in wanted ensures x in d.participants {
        var i :| 0 <= i < |given| && CastAll(given)[i] == x;
        assert given[i] in given;
      }
    }
    if forall x :: x in wanted ==> x in d.participants {
      forall id | id in given ensures Cast(id) in d.participants {
        var i :| 0 <= i < |given| && given[i] == id;
        assert CastAll(given)[i] == Cast(id);
      }
    }
  }

  lemma AllFit(members: set<string>, initiator: string, ids: seq<string>)
    ensures var given, all := [initiator] + ids, All(initiator, ids);
      && |all| == |Elems(given)| && CheckMembers(members, all) == CheckMembers(members, given)
      && (forall k: nat :: FirstUnfit(members, given, k) ==> CheckMembers(members, all) == Some(if IsObjectId(given[k]) then NotAMember else BadId))
      && (CheckMembers(members, all) == None <==> forall id :: id in given ==> IsObjectId(id) && Cast(id) in members)
  {
    var given := [initiator] + ids;
    DistinctOk(given);
    ElemsSize(All(initiator, ids));
    CheckDistinct(members, given);
    CheckMembersIff(members, given);
  }

  lemma OpenIs(dms: seq<Dm>, w: nat, members: set<string>, initiator: string, ids: seq<string>)
    ensures var (dms', r) := GetOrCreate(dms, w, members, initiator, ids); Opened(dms, dms', r, w, members, initiator, ids)
  {
    var wanted := CastAll(Sort(All(initiator, ids)));
    AllFit(members, initiator, ids);
    FindOk(dms, w, wanted, 0);
    LookupList(initiator, ids);
    forall d ensures Matches(d, w, wanted) <==> Between(d, w, [initiator] + ids) { MatchesBetween(d, w, initiator, ids); }
    var (dms', r) := GetOrCreate(dms, w, members, initiator, ids);
    if r.Ok? {
      if Find(dms, w, wanted, 0).Some? {
        WithoutIff(dms[r.value].closedBy, initiator);
      } else {
        assert dms'[|dms|] == NewDm(w, wanted) && Matches(NewDm(w, wanted), w, wanted);
      }
    }
  }

  /** Participants and workspace of a conversation never change, and none disappears. */
  predicate Extends(dms: seq<Dm>, dms': seq<Dm>) {
    |dms| <= |dms'| && forall i :: 0 <= i < |dms| ==>
      dms'[i].workspace == dms[i].workspace && dms'[i].participants == dms[i].participants && dms'[i].isGroup == dms[i].isGroup
  }

  /** What one call does: the conversation returned has exactly the wanted participants, and it is new
      only when no conversation had them. */
  lemma OpenOk(dms: seq<Dm>, w: nat, members: set<string>, initiator: string, ids: seq<string>)
    requires Inv(dms) && Unambiguous(initiator, ids)
    ensures var (dms', r) := GetOrCreate(dms, w, members, initiator, ids);
      && Inv(dms') && Extends(dms, dms')
      && (r.Ok? ==> r.value < |dms'| && dms'[r.value].workspace == w && Elems(dms'[r.value].participants) == Wanted(initiator, ids))
      && (r.Ok? ==> (r.value == |dms| <==> |dms'| == |dms| + 1))
  {
    var wanted := CastAll(Sort(All(initiator, ids)));
    LookupList(initiator, ids);
    FindOk(dms, w, wanted, 0);
    var (dms', r) := GetOrCreate(dms, w, members, initiator, ids);
    if r.Ok? {
      if Find(dms, w, wanted, 0).Some? {
        MatchExact(dms[r.value], w, wanted);
      } else {
        forall i | 0 <= i < |dms| ensures Apart(dms[i], dms'[|dms|]) { MatchExact(dms[i], w, wanted); }
      }
    }
  }

  lemma Unique(dms: seq<Dm>, i: nat, k: nat)
    requires Inv(dms) && i < |dms| && k < |dms| && dms[i].workspace == dms[k].workspace
    requires Elems(dms[i].participants) == Elems(dms[k].participants)
    ensures i == k
  {
    assert !Apart(dms[i], dms[k]) && !Apart(dms[k], dms[i]);
  }

  predicate OpOk(op: Op) { op.Open? ==> Unambiguous(op.initiator, op.ids) }

  predicate OpsOk(ops: seq<Op>) { forall i :: 0 <= i < |ops| ==> OpOk(ops[i]) }

  lemma ApplyOk(dms: seq<Dm>, op: Op)
    requires Inv(dms) && OpOk(op)
    ensures Inv(Apply(dms, op)) && Extends(dms, Apply(dms, op))
  {
    if op.Open? { OpenOk(dms, op.workspace, op.members, op.initiator, op.ids); }
  }

  /** A call that creates a conversation names no user in two spellings. */
  predicate ExactStep(dms: seq<Dm>, op: Op) {
    op.Open? && |Apply(dms, op)| > |dms| ==> Unambiguous(op.initiator, op.ids)
  }

  predicate ExactRun(ops: seq<Op>) {
    ops == [] || (ExactRun(ops[..|ops| - 1]) && ExactStep(Run(ops[..|ops| - 1]), ops[|ops| - 1]))
  }

  /** Whoever has closed a conversation plays no part in the invariant. */
  lemma SameInv(dms: seq<Dm>, dms': seq<Dm>)
    requires |dms| == |dms'| && Extends(dms, dms')
    ensures Inv(dms') <==> Inv(dms)
  {
    forall i | 0 <= i < |dms| ensures DmOk(dms'[i]) <==> DmOk(dms[i]) {}
    forall i, j | 0 <= i < j < |dms| ensures Apart(dms'[i], dms'[j]) <==> Apart(dms[i], dms[j]) {}
    if Inv(dms') { forall i, j | 0 <= i < j < |dms| ensures Apart(dms[i], dms[j]) { assert Apart(dms'[i], dms'[j]); } }
  }

  /** A list with a repetition is never exact. */
  lemma CreateInv(dms: seq<Dm>, w: nat, members: set<string>, initiator: string, ids: seq<string>)
    requires |GetOrCreate(dms, w, members, initiator, ids).0| > |dms|
    ensures Inv(GetOrCreate(dms, w, members, initiator, ids).0) <==> Inv(dms) && Unambiguous(initiator, ids)
  {
    var wanted := CastAll(Sort(All(initiator, ids)));
    LookupList(initiator, ids);
    FindOk(dms, w, wanted, 0);
    var dms' := GetOrCreate(dms, w, members, initiator, ids).0;
    assert dms' == dms + [NewDm(w, wanted)] && dms'[|dms|].participants == wanted;
    if Inv(dms') {
      assert DmOk(dms'[|dms|]);
      forall i | 0 <= i < |dms| ensures DmOk(dms[i]) { assert DmOk(dms'[i]); }
      forall i, j | 0 <= i < j < |dms| ensures Apart(dms[i], dms[j]) { assert Apart(dms'[i], dms'[j]); }
    } else if Unambiguous(initiator, ids) && Inv(dms) {
      OpenOk(dms, w, members, initiator, ids);
      assert false;
    }
  }

  lemma ApplyInv(dms: seq<Dm>, op: Op)
    ensures Inv(Apply(dms, op)) <==> Inv(dms) && ExactStep(dms, op)
  {
    if op.Open? && |Apply(dms, op)| > |dms| {
      CreateInv(dms, op.workspace, op.members, op.initiator, op.ids);
    } else {
      if op.Open? { FindOk(dms, op.workspace, CastAll(Sort(All(op.initiator, op.ids))), 0); }
      SameInv(dms, Apply(dms, op));
    }
  }

  /** Over any sequence of calls: distinct participants, between 2 and 8, and no two conversations of a
      workspace with the same ones, if and only if every call that created a conversation named no user in
      two spellings. */
  lemma {:induction false} OneDmPerSetIff(ops: seq<Op>)
    ensures Inv(Run(ops)) <==> ExactRun(ops)
  {
    if ops != [] {
      OneDmPerSetIff(ops[..|ops| - 1]);
      ApplyInv(Run(ops[..|ops| - 1]), ops[|ops| - 1]);
    }
  }

  lemma {:induction false} OkIsExact(ops: seq<Op>)
    requires OpsOk(ops)
    ensures ExactRun(ops)
  {
    if ops != [] {
      assert OpOk(ops[|ops| - 1]);
      OkIsExact(ops[..|ops| - 1]);
    }
  }

  /** In particular when no call names a user in two spellings. */
  lemma {:induction false} OneDmPerSet(ops: seq<Op>)
    requires OpsOk(ops)
    ensures Inv(Run(ops))
  {
    OkIsExact(ops);
    OneDmPerSetIff(ops);
  }

  lemma {:induction false} RunExtends(ops: seq<Op>, n: nat)
    requires OpsOk(ops) && n <= |ops|
    ensures Extends(Run(ops[..n]), Run(ops))
    decreases |ops|
  {
    if n == |ops| {
      assert ops[..n] == ops;
    } else {
      var before := ops[..|ops| - 1];
      RunExtends(before, n);
      assert before[..n] == ops[..n];
      OneDmPerSet(before);
      ApplyOk(Run(before), ops[|ops| - 1]);
    }
  }

  /** The answer to a call at the end of a run. */
  function Answer(ops: seq<Op>, op: Op): Result<nat, Error>
    requires op.Open?
  {
    GetOrCreate(Run(ops), op.workspace, op.members, op.initiator, op.ids).1
  }

  /** Calls that name the same users of a workspace, in whatever order, however often and by whichever of
      them, get the same conversation, whatever happens in between. */
  lemma SameDm(ops: seq<Op>, n: nat, again: Op)
    requires OpsOk(ops + [again]) && n < |ops| && ops[n].Open? && again.Open?
    requires ops[n].workspace == again.workspace && Wanted(ops[n].initiator, ops[n].ids) == Wanted(again.initiator, again.ids)
    requires Answer(ops[..n], ops[n]).Ok? && Answer(ops, again).Ok?
    ensures Answer(ops, again) == Answer(ops[..n], ops[n])
  {
    var first := ops[n];
    assert OpOk((ops + [again])[|ops|]);
    forall i | 0 <= i < |ops| ensures OpOk(ops[i]) { assert (ops + [again])[i] == ops[i]; }
    OneDmPerSet(ops[..n]);
    OneDmPerSet(ops);
    OpenOk(Run(ops[..n]), first.workspace, first.members, first.initiator, first.ids);
    assert ops[..n + 1][..n] == ops[..n] && ops[..n + 1][n] == first;
    RunExtends(ops, n + 1);
    OpenOk(Run(ops), again.workspace, again.members, again.initiator, again.ids);
    var i, k := Answer(ops[..n], first).value, Answer(ops, again).value;
    var dms, dms' := Run(ops), GetOrCreate(Run(ops), again.workspace, again.members, again.initiator, again.ids).0;
    assert i < |dms| && Elems(dms'[i].participants) == Elems(dms'[k].participants);
    Unique(dms', i, k);
  }

  /** The answer is a conversation between exactly the named users, each of them once, if and only if no
      user is named in two spellings. */
  lemma ExactIff(dms: seq<Dm>, w: nat, members: set<string>, initiator: string, ids: seq<string>)
    requires Inv(dms) && GetOrCreate(dms, w, members, initiator, ids).1.Ok?
    ensures var (dms', r) := GetOrCreate(dms, w, members, initiator, ids);
      r.value < |dms'|
      && (NoDup(dms'[r.value].participants) && Elems(dms'[r.value].participants) == Wanted(initiator, ids)
          <==> Unambiguous(initiator, ids))
  {
    var all := All(initiator, ids);
    var wanted := CastAll(Sort(all));
    LookupList(initiator, ids);
    FindOk(dms, w, wanted, 0);
    var (dms', r) := GetOrCreate(dms, w, members, initiator, ids);
    if Unambiguous(initiator, ids) {
      OpenOk(dms, w, members, initiator, ids);
    } else {
      NoDupSize(wanted);
      NoDupSize(dms'[r.value].participants);
    }
  }

  /** The search and the creation are two steps: two calls that both searched in vain before either
      created its conversation leave one per set if and only if they wanted different sets. */
  lemma ConcurrentCreateIff(dms: seq<Dm>, w: nat, initiator: string, ids: seq<string>, initiator': string, ids': seq<string>)
    requires Inv(dms) && Unambiguous(initiator, ids) && Unambiguous(initiator', ids')
    requires 2 <= |All(initiator, ids)| <= 8 && 2 <= |All(initiator', ids')| <= 8
    requires Find(dms, w, CastAll(Sort(All(initiator, ids))), 0).None?
    requires Find(dms, w, CastAll(Sort(All(initiator', ids'))), 0).None?
    ensures Inv(dms + [NewDm(w, CastAll(Sort(All(initiator, ids)))), NewDm(w, CastAll(Sort(All(initiator', ids'))))])
            <==> Wanted(initiator, ids) != Wanted(initiator', ids')
  {
    var wanted, wanted' := CastAll(Sort(All(initiator, ids))), CastAll(Sort(All(initiator', ids')));
    var one, two := NewDm(w, wanted), NewDm(w, wanted');
    var both := dms + [one, two];
    LookupList(initiator, ids);
    LookupList(initiator', ids');
    FindOk(dms, w, wanted, 0);
    FindOk(dms, w, wanted', 0);
    forall i | 0 <= i < |dms| ensures Apart(dms[i], one) && Apart(dms[i], two) {
      MatchExact(dms[i], w, wanted);
      MatchExact(dms[i], w, wanted');
    }
    assert both[|dms|] == one && both[|dms| + 1] == two;
    if Wanted(initiator, ids) == Wanted(initiator', ids') { assert !Apart(both[|dms|], both[|dms| + 1]); }
  }

  // ----- Sorted participants ------------------------------------------------------------------------

  predicate OpPrinted(op: Op) { op.Open? ==> Printed(op.initiator, op.ids) }

  lemma PrintedOk(initiator: string, ids: seq<string>)
    requires Printed(initiator, ids)
    ensures Unambiguous(initiator, ids) && CastAll(Sort(All(initiator, ids))) == Sort(All(initiator, ids))
  {
    var all := All(initiator, ids);
    DistinctOk([initiator] + ids);
    SortOk(all);
    forall i | 0 <= i < |all| ensures CastAll(all)[i] == all[i] { assert all[i] in Elems(all); }
    forall i | 0 <= i < |Sort(all)| ensures CastAll(Sort(all))[i] == Sort(all)[i] { assert Sort(all)[i] in Elems(Sort(all)); }
  }

  /** Lower case changes the order of no two spellings that were given. */
  predicate KeepsOrder(initiator: string, ids: seq<string>) {
    forall x, y :: x in All(initiator, ids) && y in All(initiator, ids) && Less(x, y) ==> Less(Cast(x), Cast(y))
  }

  lemma IndexOrder(xs: seq<string>, i: nat, j: nat)
    requires Sorted(xs) && i < |xs| && j < |xs| && Less(xs[i], xs[j])
    ensures i < j
  {
    LessTotal(xs[i], xs[j]);
  }

  /** The list that is stored is sorted if and only if the order of the spellings is that of the ids. */
  lemma SortedIff(initiator: string, ids: seq<string>)
    ensures Sorted(CastAll(Sort(All(initiator, ids)))) <==> KeepsOrder(initiator, ids)
  {
    var all := All(initiator, ids);
    var sorted := Sort(all);
    DistinctOk([initiator] + ids);
    SortOk(all);
    forall x ensures x in sorted <==> x in all { assert x in Elems(sorted) <==> x in Elems(all); }
    if Sorted(CastAll(sorted)) {
      forall x, y | x in all && y in all && Less(x, y) ensures Less(Cast(x), Cast(y)) {
        assert x in sorted && y in sorted;
        var i :| 0 <= i < |sorted| && sorted[i] == x;
        var j :| 0 <= j < |sorted| && sorted[j] == y;
        IndexOrder(sorted, i, j);
        assert CastAll(sorted)[i] == Cast(x) && CastAll(sorted)[j] == Cast(y);
      }
    }
    if KeepsOrder(initiator, ids) {
      forall i, j | 0 <= i < j < |sorted| ensures Less(CastAll(sorted)[i], CastAll(sorted)[j]) {
        assert sorted[i] in all && sorted[j] in all;
      }
    }
  }

  predicate AllSorted(dms: seq<Dm>) { forall i :: 0 <= i < |dms| ==> Sorted(dms[i].participants) }

  /** A call that creates a conversation keeps the order of its ids. */
  predicate OrderedStep(dms: seq<Dm>, op: Op) {
    op.Open? && |Apply(dms, op)| > |dms| ==> KeepsOrder(op.initiator, op.ids)
  }

  predicate OrderedRun(ops: seq<Op>) {
    ops == [] || (OrderedRun(ops[..|ops| - 1]) && OrderedStep(Run(ops[..|ops| - 1]), ops[|ops| - 1]))
  }

  lemma ApplySorted(dms: seq<Dm>, op: Op)
    ensures AllSorted(Apply(dms, op)) <==> AllSorted(dms) && OrderedStep(dms, op)
  {
    if op.Open? { OpenSorted(dms, op.workspace, op.members, op.initiator, op.ids); } else { HideSorted(dms, op.workspace, op.dm, op.user); }
  }

  /** A call changes no list of participants, and adds at most one. */
  lemma OpenSorted(dms: seq<Dm>, w: nat, members: set<string>, initiator: string, ids: seq<string>)
    ensures var dms' := GetOrCreate(dms, w, members, initiator, ids).0;
      AllSorted(dms') <==> AllSorted(dms) && (|dms'| > |dms| ==> KeepsOrder(initiator, ids))
  {
    var wanted := CastAll(Sort(All(initiator, ids)));
    var dms' := GetOrCreate(dms, w, members, initiator, ids).0;
    FindOk(dms, w, wanted, 0);
    SortedIff(initiator, ids);
    if |dms'| > |dms| {
      assert dms' == dms + [NewDm(w, wanted)] && dms'[|dms|].participants == wanted;
      AppendSorted(dms, NewDm(w, wanted));
    } else {
      SameSorted(dms, dms');
    }
  }

  lemma AppendSorted(dms: seq<Dm>, d: Dm)
    ensures AllSorted(dms + [d]) <==> AllSorted(dms) && Sorted(d.participants)
  {
    var dms' := dms + [d];
    assert dms'[|dms|] == d && forall i :: 0 <= i < |dms| ==> dms'[i] == dms[i];
  }

  lemma SameSorted(dms: seq<Dm>, dms': seq<Dm>)
    requires |dms| == |dms'| && forall i :: 0 <= i < |dms| ==> dms'[i].participants == dms[i].participants
    ensures AllSorted(dms') <==> AllSorted(dms)
  {
    if AllSorted(dms) { forall i | 0 <= i < |dms'| ensures Sorted(dms'[i].participants) { assert Sorted(dms[i].participants); } }
    if AllSorted(dms') { forall i | 0 <= i < |dms| ensures Sorted(dms[i].participants) { assert Sorted(dms'[i].participants); } }
  }

  lemma HideSorted(dms: seq<Dm>, w: nat, id: nat, user: string)
    ensures AllSorted(Close(dms, w, id, user).0) <==> AllSorted(dms)
  {
    SameSorted(dms, Close(dms, w, id, user).0);
  }

  /** Over any sequence of calls, every stored list is sorted if and only if every call that created a
      conversation kept the order of its ids. */
  lemma {:induction false} ParticipantsSortedIff(ops: seq<Op>)
    ensures AllSorted(Run(ops)) <==> OrderedRun(ops)
  {
    if ops != [] {
      ParticipantsSortedIff(ops[..|ops| - 1]);
      ApplySorted(Run(ops[..|ops| - 1]), ops[|ops| - 1]);
    }
  }

  lemma PrintedKeepsOrder(initiator: string, ids: seq<string>)
    requires Printed(initiator, ids)
    ensures KeepsOrder(initiator, ids)
  {
    DistinctOk([initiator] + ids);
    forall x | x in All(initiator, ids) ensures Cast(x) == x {
      assert x in Elems(All(initiator, ids));
      assert x in [initiator] + ids;
    }
  }

  /** Ids spelled as the service prints them are always in order, and never ambiguous. */
  lemma {:induction false} ParticipantsSorted(ops: seq<Op>)
    requires forall i :: 0 <= i < |ops| ==> OpPrinted(ops[i])
    ensures AllSorted(Run(ops)) && OpsOk(ops)
  {
    if ops != [] {
      var before, op := ops[..|ops| - 1], ops[|ops| - 1];
      ParticipantsSorted(before);
      forall i | 0 <= i < |ops| ensures OpOk(ops[i]) {
        assert OpPrinted(ops[i]);
        if ops[i].Open? { PrintedOk(ops[i].initiator, ops[i].ids); }
      }
      assert OpPrinted(op);
      if op.Open? { PrintedKeepsOrder(op.initiator, op.ids); }
      ApplySorted(Run(before), op);
    }
  }

  /** Two calls with the same users look up and store the very same list. */
  lemma CanonicalList(initiator: string, ids: seq<string>, initiator': string, ids': seq<string>)
    requires Printed(initiator, ids) && Printed(initiator', ids') && Wanted(initiator, ids) == Wanted(initiator', ids')
    ensures CastAll(Sort(All(initiator, ids))) == CastAll(Sort(All(initiator', ids')))
  {
    PrintedOk(initiator, ids);
    PrintedOk(initiator', ids');
    LookupList(initiator, ids);
    LookupList(initiator', ids');
    SortedUnique(Sort(All(initiator, ids)), Sort(All(initiator', ids')));
  }

  function IdOf(c: char): string { [c] + seq(23, i => '0') }

  /** A user who names himself in upper case gets a conversation in which he takes part twice. */
  lemma SpellingRepeatsAUser()
    ensures var a, b := IdOf('a'), IdOf('A'); var (dms, r) := GetOrCreate([], 0, {a}, a, [b]);
      r == Ok(0) && |dms| == 1 && dms[0].participants == [a, a] && !Inv(dms)
  {
    var a, b := IdOf('a'), IdOf('A');
    assert b[0] == 'A' && a[0] == 'a' && a != b && Less(b, a);
    forall i | 0 <= i < 24 ensures Cast(a)[i] == a[i] == Cast(b)[i] {}
    assert Cast(a) == a && Cast(b) == a;
    assert [a] + [b] == [a, b] && [a, b][..1] == [a];
    assert Distinct([a]) == [a];
    assert All(a, [b]) == [a, b];
    assert [a, b][1..] == [b];
    assert Insert(a, []) == [a];
    assert Sort([b]) == [b];
    assert Sort([a, b]) == [b, a];
    assert CheckMembers({a}, [b]).None?;
    assert CheckMembers({a}, [a, b]).None?;
    assert CastAll([b, a]) == [a, a];
    var dms := GetOrCreate([], 0, {a}, a, [b]).0;
    assert dms == [NewDm(0, [a, a])];
    var ps := dms[0].participants;
    assert ps[0] == ps[1];
    assert !DmOk(dms[0]);
  }

  /** Upper-case spellings are sorted before they are cast, so that the stored list need not be sorted. */
  lemma SpellingBreaksTheOrder()
    ensures var b, a := IdOf('B'), IdOf('a');
      Unambiguous(b, [a]) && GetOrCreate([], 0, {Cast(a), Cast(b)}, b, [a]).1 == Ok(0)
      && !AllSorted(GetOrCreate([], 0, {Cast(a), Cast(b)}, b, [a]).0)
  {
    var b, a := IdOf('B'), IdOf('a');
    assert b[0] == 'B' && a[0] == 'a' && b != a && Less(b, a);
    assert [b] + [a] == [b, a] && [b, a][..1] == [b] ;
    assert Distinct([b]) == [b];
    assert All(b, [a]) == [b, a];
    assert [b, a][1..] == [a];
    assert Sort([a]) == [a];
    assert Sort([b, a]) == [b, a];
    assert CheckMembers({Cast(a), Cast(b)}, [a]).None?;
    assert CheckMembers({Cast(a), Cast(b)}, [b, a]).None?;
    var wanted := CastAll([b, a]);
    assert wanted[0][0] == 'b' && wanted[1][0] == 'a';
    assert !Less(wanted[0], wanted[1]);
    var dms := GetOrCreate([], 0, {Cast(a), Cast(b)}, b, [a]).0;
    assert dms == [Dm(0, wanted, [], false)];
    assert dms[0].participants == wanted && !Sorted(wanted);
  }
}

/** The service over the stored conversations. */
module DirectMessages {
  import opened Base
  import opened DirectMessageModel

  class DmService {
    var dms: seq<Dm>

    constructor ()
      ensures dms == Run([])
    {
      dms := [];
    }

    /** A Set of the initiator and the given ids, in insertion order. */
    method Participants(initiator: string, ids: seq<string>) returns (all: seq<string>)
      ensures all == All(initiator, ids)
    {
      var given := [initiator] + ids;
      all := [];
      var i := 0;
      while i < |given|
        invariant i <= |given| && all == Distinct(given[..i])
      {
        assert given[..i + 1][..i] == given[..i];
        if given[i] !in all { all := all + [given[i]]; }
        i := i + 1;
      }
      assert given[..i] == given;
    }

    method AssertMembers(members: set<string>, ids: seq<string>) returns (error: Option<Error>)
      ensures error == CheckMembers(members, ids)
    {
      var i := 0;
      while i < |ids|
        invariant i <= |ids| && CheckMembers(members, ids) == CheckMembers(members, ids[i..])
      {
        if |ids[i]| != 24 || !(forall k :: 0 <= k < 24 ==> HexDigit(ids[i][k])) { return Some(BadId); }
        if Cast(ids[i]) !in members { return Some(NotAMember); }
        i := i + 1;
      }
      error := None;
    }

    method FindOne(w: nat, wanted: seq<string>) returns (r: Option<nat>)
      ensures r == Find(dms, w, wanted, 0)
    {
      var i := 0;
      while i < |dms|
        invariant i <= |dms| && Find(dms, w, wanted, 0) == Find(dms, w, wanted, i)
      {
        if Matches(dms[i], w, wanted) { return Some(i); }
        i := i + 1;
      }
      r := None;
    }

    method GetOrCreateDm(w: nat, members: set<string>, initiator: string, ids: seq<string>) returns (r: Result<nat, Error>)
      modifies this
      ensures (dms, r) == GetOrCreate(old(dms), w, members, initiator, ids)
      ensures Opened(old(dms), dms, r, w, members, initiator, ids)
      ensures r.Ok? && Inv(old(dms)) && Unambiguous(initiator, ids) ==>
                r.value < |dms| && dms[r.value].workspace == w && Elems(dms[r.value].participants) == Wanted(initiator, ids)
      ensures Inv(old(dms)) && Unambiguous(initiator, ids) ==> Inv(dms) && Extends(old(dms), dms)
    {
      OpenIs(dms, w, members, initiator, ids);
      var all := Participants(initiator, ids);
      if Inv(dms) && Unambiguous(initiator, ids) { OpenOk(dms, w, members, initiator, ids); }
      if |all| < 2 { return Err(TooFew); }
      if |all| > 8 { return Err(TooMany); }
      var error := AssertMembers(members, all);
      if error.Some? { return Err(error.value); }
      var sorted := Sort(all);
      var existing := FindOne(w, CastAll(sorted));
      FindOk(dms, w, CastAll(sorted), 0);
      if existing.Some? {
        var i := existing.value;
        if initiator in dms[i].closedBy {
          dms := dms[i := dms[i].(closedBy := Without(dms[i].closedBy, initiator))];
        } else {
          WithoutAbsent(dms[i].closedBy, initiator);
          assert dms[i := dms[i]] == dms;
        }
        return Ok(i);
      }
      r := Ok(|dms|);
      dms := dms + [NewDm(w, CastAll(sorted))];
    }

    method CloseDm(w: nat, id: nat, user: string) returns (error: Option<Error>)
      modifies this
      ensures (dms, error) == Close(old(dms), w, id, user)
      ensures error == None <==> id < |old(dms)| && old(dms)[id].workspace == w && Cast(user) in old(dms)[id].participants
      ensures error != None ==> error == Some(DmNotFound) && dms == old(dms)
      ensures error == None ==>
        var closed := old(dms)[id].closedBy;
        dms == old(dms)[id := old(dms)[id].(closedBy := if user in closed then closed else closed + [Cast(user)])]
      ensures Extends(old(dms), dms)
    {
      if id >= |dms| || dms[id].workspace != w || Cast(user) !in dms[id].participants { return Some(DmNotFound); }
      if user !in dms[id].closedBy {
        dms := dms[id := dms[id].(closedBy := dms[id].closedBy + [Cast(user)])];
      }
      error := None;
    }
  }

  lemma {:induction false} WithoutAbsent(xs: seq<string>, x: string)
    requires x !in xs
    ensures Without(xs, x) == xs
  {
    if xs != [] { WithoutAbsent(xs[1..], x); }
  }
}
