/** What the two match list pages share: the tournament filter and the list
    of tournaments offered in its drop-down. */
module MatchLists {
  import opened Wrappers
  import opened Text
  import opened Models
  import Seqs

  /** The body of `GET /matches`: absent, or a page whose `data` array may
      be missing. */
  datatype MatchListBody = NoBody | Body(items: Option<seq<Match>>)

  /** The tournament filter: "" keeps every match; otherwise the match's
      tournament id, as text, must equal the selected value. */
  predicate TournamentKeeps(filter: string, m: Match)
  {
    filter == "" || (m.tournament.Some? && IntToString(m.tournament.value.id) == filter)
  }

  /** Selecting tournament `k` keeps exactly the matches of tournament `k`. */
  lemma SelectingTournamentKeepsItsMatches(k: int, m: Match)
    ensures TournamentKeeps(IntToString(k), m) <==> m.tournament.Some? && m.tournament.value.id == k
  {
    if m.tournament.Some? {
      IntToStringInjective(m.tournament.value.id, k);
    }
  }

  predicate NoDuplicates(s: seq<int>)
  {
    forall i, j :: 0 <= i < j < |s| ==> s[i] != s[j]
  }

  /** The position of the first occurrence of `x`. */
  function FirstIndex(s: seq<int>, x: int): (k: nat)
    requires x in s
    ensures k < |s| && s[k] == x
    ensures forall i :: 0 <= i < k ==> s[i] != x
  {
    if s[0] == x then 0 else 1 + FirstIndex(s[1..], x)
  }

  lemma {:induction false} FirstIndexInPrefix(s: seq<int>, n: nat, x: int)
    requires n <= |s| && x in s[..n]
    ensures FirstIndex(s, x) == FirstIndex(s[..n], x)
  {
    if s[0] != x {
      assert s[1..][..n - 1] == s[..n][1..];
      FirstIndexInPrefix(s[1..], n - 1, x);
    }
  }

  /** `Array.from(new Set(s))`: each value once. */
  function Distinct(s: seq<int>): (r: seq<int>)
    ensures NoDuplicates(r)
    ensures forall x :: x in r <==> x in s
  {
    if s == [] then []
    else
      var d := Distinct(s[..|s| - 1]);
      if s[|s| - 1] in d then d else d + [s[|s| - 1]]
  }

  /** A Set keeps its values in the order of their first occurrence. */
  lemma {:induction false} DistinctKeepsFirstOccurrenceOrder(s: seq<int>)
    ensures forall i, j :: 0 <= i < j < |Distinct(s)| ==> FirstIndex(s, Distinct(s)[i]) < FirstIndex(s, Distinct(s)[j])
  {
    if s != [] {
      var init := s[..|s| - 1];
      var last := s[|s| - 1];
      var d := Distinct(init);
      DistinctKeepsFirstOccurrenceOrder(init);
      forall i | 0 <= i < |d|
        ensures d[i] in s && FirstIndex(s, d[i]) == FirstIndex(init, d[i]) && FirstIndex(init, d[i]) < |s| - 1
      {
        assert d[i] in init;
        FirstIndexInPrefix(s, |s| - 1, d[i]);
      }
      if last !in d {
        assert last !in init;
        assert FirstIndex(s, last) == |s| - 1;
        assert Distinct(s) == d + [last];
      }
    }
  }

  /** The tournament ids of the matches that carry a tournament, in order. */
  function TournamentIds(ms: seq<Match>): (ids: seq<int>)
    ensures forall x :: x in ids <==> exists i :: 0 <= i < |ms| && ms[i].tournament.Some? && ms[i].tournament.value.id == x
  {
    if ms == [] then []
    else (if ms[0].tournament.Some? then [ms[0].tournament.value.id] else []) + TournamentIds(ms[1..])
  }

  /** The tournament of the first match that belongs to tournament `id`. */
  function FirstTournamentWith(ms: seq<Match>, id: int): (t: Tournament)
    requires id in TournamentIds(ms)
    ensures t.id == id
    ensures exists i :: 0 <= i < |ms| && ms[i].tournament == Some(t)
  {
    if ms[0].tournament.Some? && ms[0].tournament.value.id == id then ms[0].tournament.value
    else
      var t := FirstTournamentWith(ms[1..], id);
      ghost var i :| 0 <= i < |ms[1..]| && ms[1..][i].tournament == Some(t);
      assert ms[i + 1].tournament == Some(t);
      t
  }

  /** An entry of the tournament drop-down. */
  datatype TournamentOption = TournamentOption(id: int, name: string)

  /** `uniqueTournaments`: one entry per tournament that has a match, in the
      order of the ids' first appearance. */
  function UniqueTournaments(ms: seq<Match>): (r: seq<TournamentOption>)
    ensures |r| == |Distinct(TournamentIds(ms))|
    ensures forall i :: 0 <= i < |r| ==> r[i].id == Distinct(TournamentIds(ms))[i]
  {
    var ids := Distinct(TournamentIds(ms));
    seq(|ids|, i requires 0 <= i < |ids| => TournamentOption(ids[i], FirstTournamentWith(ms, ids[i]).name))
  }

  /** No tournament is offered twice. */
  lemma UniqueTournamentsDistinct(ms: seq<Match>, i: nat, j: nat)
    requires i < j < |UniqueTournaments(ms)|
    ensures UniqueTournaments(ms)[i].id != UniqueTournaments(ms)[j].id
  {
    assert NoDuplicates(Distinct(TournamentIds(ms)));
  }

  /** Each offered entry is the tournament of some match, under that
      tournament's name. */
  lemma UniqueTournamentNamedAfterMatch(ms: seq<Match>, i: nat)
    requires i < |UniqueTournaments(ms)|
    ensures exists k :: (0 <= k < |ms| && ms[k].tournament.Some? &&
                         ms[k].tournament.value.id == UniqueTournaments(ms)[i].id &&
                         ms[k].tournament.value.name == UniqueTournaments(ms)[i].name)
  {
    var ids := Distinct(TournamentIds(ms));
    var t := FirstTournamentWith(ms, ids[i]);
    assert UniqueTournaments(ms)[i] == TournamentOption(ids[i], t.name);
    var k :| 0 <= k < |ms| && ms[k].tournament == Some(t);
    assert ms[k].tournament.value.id == UniqueTournaments(ms)[i].id;
  }

  /** Every tournament that has a match is offered. */
  lemma EveryTournamentOffered(ms: seq<Match>, k: nat)
    requires k < |ms| && ms[k].tournament.Some?
    ensures exists i :: 0 <= i < |UniqueTournaments(ms)| && UniqueTournaments(ms)[i].id == ms[k].tournament.value.id
  {
    var ids := Distinct(TournamentIds(ms));
    assert ms[k].tournament.value.id in ids;
    var i := FirstIndex(ids, ms[k].tournament.value.id);
    assert UniqueTournaments(ms)[i].id == ms[k].tournament.value.id;
  }
}
