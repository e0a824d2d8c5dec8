/** The order of the visible session list. Every `setSessions` updater ends with
    `.sort((a,b) => (b.lastUpdatedAt || b.createdAt) - (a.lastUpdatedAt || a.createdAt))`:
    most recent first, a missing or zero `lastUpdatedAt` falls back to
    `createdAt`, and `Array.prototype.sort` is stable. */
module Recency {
  import opened JsString
  import opened Types

  /** `lastUpdatedAt || createdAt`: a zero `lastUpdatedAt` counts as absent. */
  function SortKey(s: Session): int {
    if s.lastUpdatedAt.Some? then OrNumber(s.lastUpdatedAt.value, s.createdAt) else s.createdAt
  }

  predicate SortedByRecency(ss: seq<Session>) {
    forall i, j :: 0 <= i < j < |ss| ==> SortKey(ss[i]) >= SortKey(ss[j])
  }

  /** Places `s` before the first element that is not more recent than it;
      `s` stays ahead of equally recent elements that came after it. */
  function Insert(s: Session, ss: seq<Session>): seq<Session> {
    if ss == [] || SortKey(ss[0]) <= SortKey(s) then [s] + ss
    else [ss[0]] + Insert(s, ss[1..])
  }

  /** The stable descending sort by `SortKey` (an insertion sort). */
  function SortByRecency(ss: seq<Session>): seq<Session> {
    if ss == [] then [] else Insert(ss[0], SortByRecency(ss[1..]))
  }

  lemma {:induction false} InsertPermutes(s: Session, ss: seq<Session>)
    ensures multiset(Insert(s, ss)) == multiset([s] + ss)
  {
    if ss != [] && SortKey(ss[0]) > SortKey(s) {
      InsertPermutes(s, ss[1..]);
      assert ss == [ss[0]] + ss[1..];
    }
  }

  lemma {:induction false} InsertSorted(s: Session, ss: seq<Session>)
    requires SortedByRecency(ss)
    ensures SortedByRecency(Insert(s, ss))
  {
    if ss != [] && SortKey(ss[0]) > SortKey(s) {
      InsertSorted(s, ss[1..]);
      InsertPermutes(s, ss[1..]);
      var r := Insert(s, ss[1..]);
      forall x | x in r ensures SortKey(ss[0]) >= SortKey(x) {
        assert x in multiset(r);
        assert x == s || x in ss[1..];
      }
      forall i, j | 0 <= i < j < |[ss[0]] + r| ensures SortKey(([ss[0]] + r)[i]) >= SortKey(([ss[0]] + r)[j]) {
        if i == 0 { assert ([ss[0]] + r)[j] in r; }
      }
    }
  }

  /** The sorted list is ordered by recency and is a permutation of the input:
      sorting neither drops nor duplicates a session. */
  lemma {:induction false} SortByRecencySpec(ss: seq<Session>)
    ensures SortedByRecency(SortByRecency(ss))
    ensures multiset(SortByRecency(ss)) == multiset(ss)
    ensures |SortByRecency(ss)| == |ss|
  {
    if ss != [] {
      SortByRecencySpec(ss[1..]);
      InsertSorted(ss[0], SortByRecency(ss[1..]));
      InsertPermutes(ss[0], SortByRecency(ss[1..]));
      assert ss == [ss[0]] + ss[1..];
    }
    assert |SortByRecency(ss)| == |multiset(SortByRecency(ss))|;
  }

  /** A session is in the sorted list exactly when it is in the input. */
  lemma SortByRecencyMembers(ss: seq<Session>)
    ensures forall s :: s in SortByRecency(ss) <==> s in ss
  {
    SortByRecencySpec(ss);
    forall s ensures s in SortByRecency(ss) <==> s in ss {
      assert s in SortByRecency(ss) <==> s in multiset(SortByRecency(ss));
    }
  }

  /** Sorting a list that is already in order changes nothing. */
  lemma {:induction false} SortSortedIsIdentity(ss: seq<Session>)
    requires SortedByRecency(ss)
    ensures SortByRecency(ss) == ss
  {
    if ss != [] {
      assert SortedByRecency(ss[1..]);
      SortSortedIsIdentity(ss[1..]);
    }
  }

  /** Dropping sessions keeps the rest in order. */
  lemma {:induction false} FilterKeepsOrder(ss: seq<Session>, id: string)
    requires SortedByRecency(ss)
    ensures SortedByRecency(WithoutId(ss, id))
  {
    if ss != [] {
      assert SortedByRecency(ss[1..]);
      FilterKeepsOrder(ss[1..], id);
      WithoutIdMembers(ss[1..], id);
      if ss[0].id != id {
        var r := WithoutId(ss[1..], id);
        forall i, j | 0 <= i < j < |[ss[0]] + r| ensures SortKey(([ss[0]] + r)[i]) >= SortKey(([ss[0]] + r)[j]) {
          if i == 0 {
            var x := ([ss[0]] + r)[j];
            assert x in r;
            var k :| 0 <= k < |ss[1..]| && ss[1..][k] == x;
            assert ss[k + 1] == x;
          }
        }
      }
    }
  }

  /** `sessions.filter(s => s.id !== id)` */
  function WithoutId(ss: seq<Session>, id: string): seq<Session> {
    if ss == [] then []
    else if ss[0].id != id then [ss[0]] + WithoutId(ss[1..], id)
    else WithoutId(ss[1..], id)
  }

  lemma {:induction false} WithoutIdMembers(ss: seq<Session>, id: string)
    ensures forall s :: s in WithoutId(ss, id) <==> s in ss && s.id != id
    ensures |WithoutId(ss, id)| <= |ss|
  {
    if ss != [] {
      WithoutIdMembers(ss[1..], id);
      assert forall s :: s in ss <==> s == ss[0] || s in ss[1..];
    }
  }
}
