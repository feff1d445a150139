/** `order_by(Alert.timestamp.desc())`: alerts newest first. Rows with equal timestamps
    keep their table order. */
module AlertOrder {
  import opened Records

  ghost predicate NewestFirst(s: seq<Alert>)
  {
    forall i, j :: 0 <= i < j < |s| ==> s[i].timestamp >= s[j].timestamp
  }

  /** Places an alert before the first one that is strictly older. */
  function Insert(a: Alert, s: seq<Alert>): (r: seq<Alert>)
    ensures multiset(r) == multiset(s) + multiset{a}
  {
    if s == [] || a.timestamp >= s[0].timestamp then
      [a] + s
    else
      assert s == [s[0]] + s[1..];
      [s[0]] + Insert(a, s[1..])
  }

  /** An alert at least as new as everything in a newest-first list may go in front. */
  lemma PrependKeepsOrder(a: Alert, s: seq<Alert>)
    requires NewestFirst(s) && forall x :: x in s ==> a.timestamp >= x.timestamp
    ensures NewestFirst([a] + s)
  {
    var r := [a] + s;
    forall i, j | 0 <= i < j < |r|
      ensures r[i].timestamp >= r[j].timestamp
    {
      assert r[j] == s[j - 1];
      if i > 0 {
        assert r[i] == s[i - 1];
      } else {
        assert s[j - 1] in s;
      }
    }
  }

  /** Inserting into a newest-first list keeps it newest first. */
  lemma {:induction false} InsertKeepsOrder(a: Alert, s: seq<Alert>)
    requires NewestFirst(s)
    ensures NewestFirst(Insert(a, s))
    decreases |s|
  {
    if s == [] || a.timestamp >= s[0].timestamp {
      forall x | x in s
        ensures a.timestamp >= x.timestamp
      {
        var k :| 0 <= k < |s| && s[k] == x;
        assert s[0].timestamp >= s[k].timestamp;
      }
      PrependKeepsOrder(a, s);
    } else {
      var tail := s[1..];
      var rest := Insert(a, tail);
      assert NewestFirst(tail);
      InsertKeepsOrder(a, tail);
      forall x | x in rest
        ensures s[0].timestamp >= x.timestamp
      {
        assert x in multiset(rest);
        if x != a {
          assert x in multiset(tail);
          var k :| 0 <= k < |tail| && tail[k] == x;
          assert s[k + 1] == x;
        }
      }
      PrependKeepsOrder(s[0], rest);
    }
  }

  /** The alerts newest first. */
  function SortNewestFirst(s: seq<Alert>): (r: seq<Alert>)
    ensures multiset(r) == multiset(s) && NewestFirst(r)
  {
    if s == [] then []
    else
      assert s == [s[0]] + s[1..];
      var rest := SortNewestFirst(s[1..]);
      InsertKeepsOrder(s[0], rest);
      Insert(s[0], rest)
  }

  /** Sorting keeps exactly the alerts it was given, as many times as given. */
  lemma SortKeepsMembers(s: seq<Alert>)
    ensures |SortNewestFirst(s)| == |s|
    ensures forall a :: a in SortNewestFirst(s) <==> a in s
  {
    var r := SortNewestFirst(s);
    assert |r| == |multiset(r)| == |multiset(s)| == |s|;
    forall a
      ensures a in r <==> a in s
    {
      assert a in r <==> a in multiset(r);
      assert a in s <==> a in multiset(s);
    }
  }
}
