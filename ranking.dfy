/**
 * Sorting and the leaderboard invariant: the order the server sorts entries
 * into, and what a leaderboard that ranks the users says about each user.
 */
module Ranking {
  import opened Domain

  /** Inserts `e` into a leaderboard sorted by non-increasing score. */
  function Insert(lb: seq<LeaderboardEntry>, e: LeaderboardEntry): (r: seq<LeaderboardEntry>)
    requires SortedByScore(lb)
    ensures SortedByScore(r)
    ensures multiset(r) == multiset(lb) + multiset{e}
    decreases |lb|
  {
    if lb == [] || e.score >= lb[0].score then [e] + lb
    else
      var rest := Insert(lb[1..], e);
      HeadStaysFirst(lb, e, rest);
      [lb[0]] + rest
  }

  /** Putting the head of `lb` before `rest` (the tail with `e` inserted) keeps the order. */
  lemma HeadStaysFirst(lb: seq<LeaderboardEntry>, e: LeaderboardEntry, rest: seq<LeaderboardEntry>)
    requires lb != [] && SortedByScore(lb) && e.score < lb[0].score
    requires SortedByScore(rest) && multiset(rest) == multiset(lb[1..]) + multiset{e}
    ensures SortedByScore([lb[0]] + rest)
    ensures multiset([lb[0]] + rest) == multiset(lb) + multiset{e}
  {
    assert lb == [lb[0]] + lb[1..];
    forall k | 0 <= k < |rest| ensures lb[0].score >= rest[k].score {
      assert rest[k] in multiset(rest);
      if rest[k] != e {
        assert rest[k] in multiset(lb[1..]);
      }
    }
  }

  /**
   * Orders entries by non-increasing score, standing for the library sort
   * the server calls; any order among equal scores is allowed.
   */
  method SortByScoreDesc(entries: seq<LeaderboardEntry>) returns (sorted: seq<LeaderboardEntry>)
    ensures SortedByScore(sorted)
    ensures multiset(sorted) == multiset(entries)
  {
    sorted := [];
    for i := 0 to |entries|
      invariant SortedByScore(sorted)
      invariant multiset(sorted) == multiset(entries[..i])
    {
      assert entries[..i + 1] == entries[..i] + [entries[i]];
      sorted := Insert(sorted, entries[i]);
    }
    assert entries[..|entries|] == entries;
  }

  /** Distinct users project to distinct entries, so there is one standing per user. */
  lemma {:induction false} StandingsCount(users: map<string, User>)
    requires KeyedById(users)
    ensures |Standings(users)| == |users|
    decreases |users|
  {
    if users != map[] {
      var k :| k in users;
      var rest := users - {k};
      var e := LeaderboardEntry(k, users[k].score);
      assert KeyedById(rest);
      StandingsCount(rest);
      forall x ensures x in Standings(users) <==> x in Standings(rest) + {e} {
        if x in Standings(users) {
          var k' :| k' in users && x == LeaderboardEntry(users[k'].id, users[k'].score);
          if k' != k { assert k' in rest; }
        }
        if x in Standings(rest) {
          var k' :| k' in rest && x == LeaderboardEntry(rest[k'].id, rest[k'].score);
          assert k' in users;
        }
      }
      assert Standings(users) == Standings(rest) + {e};
      assert e !in Standings(rest);
      assert |rest| == |users| - 1;
    }
  }

  /** An element that occurs at two positions occurs twice in the multiset. */
  lemma TwiceInMultiset(s: seq<LeaderboardEntry>, i: nat, j: nat)
    requires i < j < |s| && s[i] == s[j]
    ensures multiset(s)[s[i]] >= 2
  {
    assert s == s[..j] + [s[j]] + s[j + 1..];
    assert s[i] in s[..j];
  }

  /**
   * A leaderboard that ranks users keyed by their ids lists every user exactly
   * once, with that user's current score.
   */
  lemma RankedLeaderboard(lb: seq<LeaderboardEntry>, users: map<string, User>)
    requires KeyedById(users) && Ranks(lb, users)
    ensures |lb| == |users|
    ensures forall i :: 0 <= i < |lb| ==> lb[i].userId in users && lb[i].score == users[lb[i].userId].score
    ensures forall k :: k in users ==> exists i :: 0 <= i < |lb| && lb[i] == LeaderboardEntry(k, users[k].score)
    ensures forall i, j :: 0 <= i < j < |lb| ==> lb[i].userId != lb[j].userId
  {
    StandingsCount(users);
    assert |lb| == |multiset(lb)|;
    forall i | 0 <= i < |lb|
      ensures lb[i].userId in users && lb[i].score == users[lb[i].userId].score
    {
      assert lb[i] in multiset(lb);
      assert lb[i] in Standings(users);
    }
    forall k | k in users
      ensures exists i :: 0 <= i < |lb| && lb[i] == LeaderboardEntry(k, users[k].score)
    {
      var e := LeaderboardEntry(k, users[k].score);
      assert e in Standings(users);
      assert e in multiset(lb);
      var i :| 0 <= i < |lb| && lb[i] == e;
    }
    forall i, j | 0 <= i < j < |lb|
      ensures lb[i] != lb[j]
    {
      if lb[i] == lb[j] {
        TwiceInMultiset(lb, i, j);
        assert false;
      }
    }
  }
}
