/**
  The decision logic of the two race endpoints that do more than pass the
  race list through: `/api/races/upto` and `/api/race/{round}`. The race list
  is the already-fetched one; the clock reading `now` and the ordering of
  race dates (`key`, the parsed date-time of a date string) are parameters.
 */
module Endpoints {
  import opened Wrappers
  import opened Models
  import opened Selection

  /** Race `i` is the first race of the list dated after `now`. */
  predicate IsFirstFuture(races: seq<Race>, key: string -> int, now: int, i: int)
  {
    && 0 <= i < |races|
    && key(races[i].date) > now
    && forall j :: 0 <= j < i ==> key(races[j].date) <= now
  }

  /** The rule of the "up to next race" filter: a race dated at or before `now`, or the first one after it. */
  function UpToNextRule(races: seq<Race>, key: string -> int, now: int): nat -> bool
  {
    (i: nat) => i < |races| && (key(races[i].date) <= now || IsFirstFuture(races, key, now, i))
  }

  /** The positions the filter keeps, in input order. */
  function UpToNextIndices(races: seq<Race>, key: string -> int, now: int): (idx: seq<nat>)
    ensures forall k :: 0 <= k < |idx| ==> idx[k] < |races|
  {
    IndicesWhere(|races|, UpToNextRule(races, key, now))
  }

  /** What `/api/races/upto` answers: the kept races, latest position first. */
  function UpToNext(races: seq<Race>, key: string -> int, now: int): seq<Race>
  {
    Reversed(Select(races, UpToNextIndices(races, key, now)))
  }

  /**
    `get_upto_next_races`: every race dated at or before `now` is appended,
    and of the later races only the first (the `added` flag); the loop does
    not stop there, so a past race listed after it is still kept. The list is
    then reversed in place.
   */
  method GetUpToNextRaces(races: seq<Race>, key: string -> int, now: int) returns (output: seq<Race>)
    ensures output == UpToNext(races, key, now)
  {
    var added := false;
    output := [];
    for i := 0 to |races|
      invariant output == Select(races, IndicesWhere(i, UpToNextRule(races, key, now)))
      invariant added <==> exists j :: 0 <= j < i && key(races[j].date) > now
    {
      var race := races[i];
      UpToNextStep(races, key, now, i, added);
      if key(race.date) <= now {
        output := output + [race];
      } else {
        if !added {
          output := output + [race];
          added := true;
        }
      }
    }
    output := Reversed(output);
  }

  /** One turn of the loop: race `i` is kept iff it is not later than `now` or no earlier race was. */
  lemma UpToNextStep(races: seq<Race>, key: string -> int, now: int, i: nat, added: bool)
    requires i < |races|
    requires added <==> exists j :: 0 <= j < i && key(races[j].date) > now
    ensures var rule := UpToNextRule(races, key, now);
      var before := IndicesWhere(i, rule);
      var pick := key(races[i].date) <= now || !added;
      Select(races, IndicesWhere(i + 1, rule)) == Select(races, before) + (if pick then [races[i]] else [])
  {
    var rule := UpToNextRule(races, key, now);
    var before := IndicesWhere(i, rule);
    var pick := key(races[i].date) <= now || !added;
    assert rule(i) == pick;
    assert IndicesWhere(i + 1, rule) == before + (if pick then [i] else []);
    if pick {
      SelectSnoc(races, before, i);
    }
  }

  /** The number of races among the first `n` dated at or before `now`. */
  function CountPast(races: seq<Race>, key: string -> int, now: int, n: nat): nat
    requires n <= |races|
  {
    if n == 0 then 0
    else CountPast(races, key, now, n - 1) + (if key(races[n - 1].date) <= now then 1 else 0)
  }

  /** Some race among the first `n` is dated after `now`. */
  predicate AnyFuture(races: seq<Race>, key: string -> int, now: int, n: nat)
  {
    exists j :: 0 <= j < n && j < |races| && key(races[j].date) > now
  }

  /** Every race dated at or before `now` is answered. */
  lemma UpToNextKeepsPast(races: seq<Race>, key: string -> int, now: int)
    ensures forall i :: 0 <= i < |races| && key(races[i].date) <= now ==> races[i] in UpToNext(races, key, now)
  {
    var idx := UpToNextIndices(races, key, now);
    var out := UpToNext(races, key, now);
    IndicesWhereComplete(|races|, UpToNextRule(races, key, now));
    forall i | 0 <= i < |races| && key(races[i].date) <= now
      ensures races[i] in out
    {
      assert UpToNextRule(races, key, now)(i);
      var k :| 0 <= k < |idx| && idx[k] == i;
      assert out[|idx| - 1 - k] == races[i];
    }
  }

  /** A race dated after `now` is answered only as the first such race of the list. */
  lemma UpToNextOnlyFirstFuture(races: seq<Race>, key: string -> int, now: int)
    ensures var out := UpToNext(races, key, now);
      forall m :: 0 <= m < |out| && key(out[m].date) > now ==>
        exists i :: IsFirstFuture(races, key, now, i) && out[m] == races[i]
  {
    var idx := UpToNextIndices(races, key, now);
    var out := UpToNext(races, key, now);
    forall m | 0 <= m < |out| && key(out[m].date) > now
      ensures exists i :: IsFirstFuture(races, key, now, i) && out[m] == races[i]
    {
      var i := idx[|idx| - 1 - m];
      assert i < |races| && out[m] == races[i];
      assert UpToNextRule(races, key, now)(i);
      assert IsFirstFuture(races, key, now, i);
    }
  }

  /** At most one answered race is dated after `now`. */
  lemma UpToNextAtMostOneFuture(races: seq<Race>, key: string -> int, now: int)
    ensures var out := UpToNext(races, key, now);
      forall m, n :: 0 <= m < n < |out| ==> key(out[m].date) <= now || key(out[n].date) <= now
  {
    var idx := UpToNextIndices(races, key, now);
    var sel := Select(races, idx);
    var out := UpToNext(races, key, now);
    forall m, n | 0 <= m < n < |out| && key(out[m].date) > now
      ensures key(out[n].date) <= now
    {
      var a, b := idx[|sel| - 1 - m], idx[|sel| - 1 - n];
      assert b < a;
      assert UpToNextRule(races, key, now)(a);
      assert UpToNextRule(races, key, now)(b);
    }
  }

  /** The answer holds the races dated at or before `now` plus one more if any race is later. */
  lemma UpToNextLength(races: seq<Race>, key: string -> int, now: int)
    ensures |UpToNext(races, key, now)|
      == CountPast(races, key, now, |races|) + (if AnyFuture(races, key, now, |races|) then 1 else 0)
  {
    CountKept(races, key, now, |races|);
  }

  lemma {:induction false} CountKept(races: seq<Race>, key: string -> int, now: int, n: nat)
    requires n <= |races|
    ensures |IndicesWhere(n, UpToNextRule(races, key, now))|
      == CountPast(races, key, now, n) + (if AnyFuture(races, key, now, n) then 1 else 0)
  {
    if n > 0 {
      var rule := UpToNextRule(races, key, now);
      CountKept(races, key, now, n - 1);
      var earlier := AnyFuture(races, key, now, n - 1);
      assert AnyFuture(races, key, now, n) <==> earlier || key(races[n - 1].date) > now;
      assert IsFirstFuture(races, key, now, n - 1) <==> !earlier && key(races[n - 1].date) > now;
      assert rule(n - 1) <==> key(races[n - 1].date) <= now || !earlier;
    }
  }

  /** When every race is dated at or before `now`, the whole list is answered, reversed. */
  lemma UpToNextAllPast(races: seq<Race>, key: string -> int, now: int)
    requires forall i :: 0 <= i < |races| ==> key(races[i].date) <= now
    ensures UpToNext(races, key, now) == Reversed(races)
  {
    var idx := UpToNextIndices(races, key, now);
    AllIndices(|races|, UpToNextRule(races, key, now));
    assert Select(races, idx) == races;
  }

  lemma {:induction false} AllIndices(n: nat, keep: nat -> bool)
    requires forall i :: 0 <= i < n ==> keep(i)
    ensures |IndicesWhere(n, keep)| == n
    ensures forall k :: 0 <= k < n ==> IndicesWhere(n, keep)[k] == k
  {
    if n > 0 {
      AllIndices(n - 1, keep);
      var prev := IndicesWhere(n - 1, keep);
      assert keep(n - 1);
      assert IndicesWhere(n, keep) == prev + [n - 1];
    }
  }

  /** Before the season starts (every race after `now`) the answer is the first race alone. */
  lemma UpToNextNotStarted(races: seq<Race>, key: string -> int, now: int)
    requires races != []
    requires forall i :: 0 <= i < |races| ==> key(races[i].date) > now
    ensures UpToNext(races, key, now) == [races[0]]
  {
    assert key(races[0].date) > now;
    assert AnyFuture(races, key, now, |races|);
    NoPast(races, key, now, |races|);
    UpToNextLength(races, key, now);
    UpToNextOnlyFirstFuture(races, key, now);
    var out := UpToNext(races, key, now);
    var i :| IsFirstFuture(races, key, now, i) && out[0] == races[i];
    assert i == 0;
  }

  lemma {:induction false} NoPast(races: seq<Race>, key: string -> int, now: int, n: nat)
    requires n <= |races|
    requires forall i :: 0 <= i < |races| ==> key(races[i].date) > now
    ensures CountPast(races, key, now, n) == 0
  {
    if n > 0 {
      NoPast(races, key, now, n - 1);
    }
  }

  /** Two past races and one later race: all three are answered, latest first. */
  lemma UpToNextMidSeason(a: Race, b: Race, c: Race, key: string -> int, now: int)
    requires key(a.date) <= now && key(b.date) <= now && key(c.date) > now
    ensures UpToNext([a, b, c], key, now) == [c, b, a]
  {
    var rule := UpToNextRule([a, b, c], key, now);
    assert rule(0) && rule(1) && rule(2);
    assert IndicesWhere(3, rule) == [0, 1, 2];
  }

  /**
    The loop does not stop at the first later race: a past race listed after
    two later ones is still answered, while the second later race is not.
   */
  lemma UpToNextPastAfterFuture(a: Race, b: Race, c: Race, d: Race, key: string -> int, now: int)
    requires key(a.date) <= now && key(b.date) > now && key(c.date) > now && key(d.date) <= now
    ensures UpToNext([a, b, c, d], key, now) == [d, b, a]
  {
    var races := [a, b, c, d];
    var rule := UpToNextRule(races, key, now);
    assert IsFirstFuture(races, key, now, 1);
    assert !IsFirstFuture(races, key, now, 2) by {
      assert key(races[1].date) > now;
    }
    assert rule(0) && rule(1) && !rule(2) && rule(3);
    assert IndicesWhere(2, rule) == [0, 1];
    assert IndicesWhere(3, rule) == [0, 1];
    assert IndicesWhere(4, rule) == [0, 1, 3];
  }

  const RaceNotFound: string := "Race not found"

  /**
    `get_race`: the first race of the list whose id is `round`; when none
    has it, a not-found error (HTTP 404, "Race not found").
   */
  method GetRace(races: seq<Race>, round: int) returns (r: Result<Race, Error>)
    ensures r.Failure? <==> forall i :: 0 <= i < |races| ==> races[i].id != round
    ensures r.Success? ==> exists i :: 0 <= i < |races| && races[i] == r.value
                                     && races[i].id == round && forall j :: 0 <= j < i ==> races[j].id != round
    ensures r.Failure? ==> r.error == NotFound(RaceNotFound) && StatusCode(r.error) == 404
  {
    for i := 0 to |races|
      invariant forall j :: 0 <= j < i ==> races[j].id != round
    {
      if races[i].id == round {
        return Success(races[i]);
      }
    }
    return Failure(NotFound(RaceNotFound));
  }
}
