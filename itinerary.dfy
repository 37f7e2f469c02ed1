/** Properties of an itinerary: an ordered list of call request values that is
    grown by appending, where each appended request has a fresh id and depends
    only on requests already in the list. */
module Itineraries {
  import opened CallRequests

  /** The ids of the requests in an itinerary. */
  function Ids(s: seq<Call>): set<nat> {
    set i | 0 <= i < |s| :: s[i].id
  }

  /** An itinerary as it is built: every appended request carries an id not used
      before it and depends only on ids already present. */
  predicate ValidItinerary(s: seq<Call>)
    decreases |s|
  {
    s == [] ||
    (var prefix, last := s[..|s| - 1], s[|s| - 1];
     ValidItinerary(prefix) &&
     last.id !in Ids(prefix) &&
     forall d :: d in last.dependencies ==> d in Ids(prefix))
  }

  /** Ids are unique and every dependency names an earlier request, so the list
      order is a topological order of the dependency edges. */
  predicate Topological(s: seq<Call>) {
    (forall i, j :: 0 <= i < j < |s| ==> s[i].id != s[j].id) &&
    (forall i, d :: 0 <= i < |s| && d in s[i].dependencies ==>
       exists j :: 0 <= j < i && s[j].id == d)
  }

  lemma {:induction false} ValidIffTopological(s: seq<Call>)
    ensures ValidItinerary(s) <==> Topological(s)
    decreases |s|
  {
    if s != [] {
      var prefix, last := s[..|s| - 1], s[|s| - 1];
      ValidIffTopological(prefix);
      assert s == prefix + [last];
      if ValidItinerary(s) {
        forall i, j | 0 <= i < j < |s| ensures s[i].id != s[j].id {
          if j == |s| - 1 {
            assert s[i].id == prefix[i].id;
          } else {
            assert s[i] == prefix[i] && s[j] == prefix[j];
          }
        }
        forall i, d | 0 <= i < |s| && d in s[i].dependencies
          ensures exists j :: 0 <= j < i && s[j].id == d
        {
          if i == |s| - 1 {
            assert d in Ids(prefix);
            var j :| 0 <= j < |prefix| && prefix[j].id == d;
            assert s[j].id == d;
          } else {
            assert s[i] == prefix[i];
            var j :| 0 <= j < i && prefix[j].id == d;
            assert s[j].id == d;
          }
        }
      }
      if Topological(s) {
        assert Topological(prefix) by {
          forall i, d | 0 <= i < |prefix| && d in prefix[i].dependencies
            ensures exists j :: 0 <= j < i && prefix[j].id == d
          {
            assert s[i] == prefix[i];
            var j :| 0 <= j < i && s[j].id == d;
            assert prefix[j].id == d;
          }
        }
        forall k | 0 <= k < |prefix| ensures prefix[k].id != last.id {
          assert prefix[k] == s[k];
        }
        forall d | d in last.dependencies ensures d in Ids(prefix) {
          var j :| 0 <= j < |s| - 1 && s[j].id == d;
          assert prefix[j].id == d;
        }
      }
    }
  }

  /** The shape every itinerary builder produces: consecutive ids from `first`,
      the head depends on nothing and every later request depends exactly on the
      one before it. */
  predicate ChainFrom(s: seq<Call>, first: nat) {
    |s| > 0 &&
    s[0].dependencies == [] &&
    (forall i :: 0 <= i < |s| ==> s[i].id == first + i) &&
    (forall i :: 0 < i < |s| ==> s[i].dependencies == [s[i - 1].id])
  }

  lemma {:induction false} ChainIsValid(s: seq<Call>, first: nat)
    requires ChainFrom(s, first)
    ensures ValidItinerary(s)
    decreases |s|
  {
    var prefix, last := s[..|s| - 1], s[|s| - 1];
    if prefix == [] {
      assert ValidItinerary(prefix) && Ids(prefix) == {};
      assert last.dependencies == [];
    } else {
      assert ChainFrom(prefix, first) by {
        assert prefix[0] == s[0];
        forall i | 0 < i < |prefix| ensures prefix[i].dependencies == [prefix[i - 1].id] {
          assert prefix[i] == s[i] && prefix[i - 1] == s[i - 1];
        }
      }
      ChainIsValid(prefix, first);
      assert last.id !in Ids(prefix) by {
        forall k | 0 <= k < |prefix| ensures prefix[k].id != last.id {
          assert prefix[k] == s[k];
        }
      }
      assert last.dependencies == [prefix[|prefix| - 1].id];
    }
  }

  /** Every declared lock requests the read operation. */
  predicate ReadLocksOnly(s: seq<Call>) {
    forall i, t, rid :: 0 <= i < |s| && t in s[i].resources && rid in s[i].resources[t] ==>
      s[i].resources[t][rid] == Read
  }

  /** Lifecycle callbacks are registered only on asynchronous requests. */
  predicate CallbacksOnlyOnAsync(s: seq<Call>) {
    forall i :: 0 <= i < |s| && !s[i].asynchronous ==> s[i].onSuccess == [] && s[i].onFailure == []
  }

  /** The same itinerary with every id, and every dependency on it, raised by `k`. */
  function Shifted(s: seq<Call>, k: nat): (r: seq<Call>)
    ensures |r| == |s|
    ensures forall i :: 0 <= i < |s| ==>
      r[i].id == s[i].id + k &&
      |r[i].dependencies| == |s[i].dependencies| &&
      (forall j :: 0 <= j < |s[i].dependencies| ==> r[i].dependencies[j] == s[i].dependencies[j] + k) &&
      r[i] == s[i].(id := r[i].id, dependencies := r[i].dependencies)
  {
    seq(|s|, i requires 0 <= i < |s| =>
      s[i].(id := s[i].id + k,
            dependencies := seq(|s[i].dependencies|, j requires 0 <= j < |s[i].dependencies| =>
                                  s[i].dependencies[j] + k)))
  }
}
