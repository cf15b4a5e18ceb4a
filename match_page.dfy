/** The "my matches" page (`pages/Match.tsx`): every match goes to one of
    three lists by its status and the clock, and the page counts two of
    them. The clock reading `now` is a parameter. */
module MatchPage {
  import opened Tables
  import C = ClientTypes

  datatype Bucket = Upcoming | Completed | InProgress

  /** A finished or cancelled match, whatever the dates say. */
  predicate Closed(m: C.Match) {
    m.status == C.Completed || m.status == C.Cancelled
  }

  /** `getMatchStatus`. */
  function StatusOf(m: C.Match, now: int): (b: Bucket)
    ensures b == InProgress <==> !Closed(m) && m.startDate <= now <= m.endDate
    ensures b == Upcoming <==> !Closed(m) && now < m.startDate
    ensures b == Completed <==> Closed(m) || (m.startDate <= now && m.endDate < now)
  {
    if Closed(m) then Completed
    else if m.startDate <= now <= m.endDate then InProgress
    else if now < m.startDate then Upcoming
    else Completed
  }

  function InBucket(b: Bucket, now: int): C.Match -> bool {
    (m: C.Match) => StatusOf(m, now) == b
  }

  /** `matches.filter((m) => getMatchStatus(m) === b)`. */
  function BucketList(ms: seq<C.Match>, b: Bucket, now: int): seq<C.Match> {
    Filter(ms, InBucket(b, now))
  }

  /** A listed match is in exactly the list of its own status. */
  lemma InExactlyOneBucket(ms: seq<C.Match>, i: nat, b: Bucket, now: int)
    requires i < |ms|
    ensures ms[i] in BucketList(ms, b, now) <==> StatusOf(ms[i], now) == b
  {
    if ms[i] in BucketList(ms, b, now) {
      var r := BucketList(ms, b, now);
      var j :| 0 <= j < |r| && r[j] == ms[i];
      assert InBucket(b, now)(r[j]);
    }
  }

  /** The three lists together hold every match exactly as often as the
      whole list does. */
  lemma {:induction false} BucketsPartition(ms: seq<C.Match>, now: int)
    ensures multiset(BucketList(ms, Completed, now)) + multiset(BucketList(ms, Upcoming, now))
            + multiset(BucketList(ms, InProgress, now)) == multiset(ms)
  {
    if ms != [] {
      var t := ms[1..];
      BucketsPartition(t, now);
      BucketListCons(ms, Completed, now);
      BucketListCons(ms, Upcoming, now);
      BucketListCons(ms, InProgress, now);
      MultisetCons(ms);
      AddToOne(multiset{ms[0]},
               multiset(BucketList(t, Completed, now)), multiset(BucketList(t, Upcoming, now)),
               multiset(BucketList(t, InProgress, now)),
               multiset(BucketList(ms, Completed, now)), multiset(BucketList(ms, Upcoming, now)),
               multiset(BucketList(ms, InProgress, now)));
    }
  }

  /** Adding `h` to one of three parts adds it to their sum. */
  lemma AddToOne<T>(h: multiset<T>, a: multiset<T>, b: multiset<T>, c: multiset<T>,
                    a': multiset<T>, b': multiset<T>, c': multiset<T>)
    requires (a' == h + a && b' == b && c' == c) || (a' == a && b' == h + b && c' == c)
          || (a' == a && b' == b && c' == h + c)
    ensures a' + b' + c' == h + (a + b + c)
  {
  }

  lemma BucketListCons(ms: seq<C.Match>, b: Bucket, now: int)
    requires ms != []
    ensures multiset(BucketList(ms, b, now)) ==
      (if StatusOf(ms[0], now) == b then multiset{ms[0]} else multiset{}) + multiset(BucketList(ms[1..], b, now))
  {
  }

  function HasStatusCompleted(): C.Match -> bool {
    (m: C.Match) => m.status == C.Completed
  }

  /** The "Concluídas" figure: the completed list narrowed to status
      COMPLETED. */
  function ConcludedCount(ms: seq<C.Match>, now: int): nat {
    |Filter(BucketList(ms, Completed, now), HasStatusCompleted())|
  }

  /** The completed-list step changes nothing: the figure is the number of
      matches with status COMPLETED, whatever the clock. */
  lemma ConcludedCountIsStatusCount(ms: seq<C.Match>, now: int)
    ensures ConcludedCount(ms, now) == |Filter(ms, HasStatusCompleted())|
  {
    FilterImplied(ms, InBucket(Completed, now), HasStatusCompleted());
  }

  /** The "Agendadas" figure. */
  function ScheduledCount(ms: seq<C.Match>, now: int): (n: nat)
    ensures n <= |ms|
    ensures n == |ms| - |BucketList(ms, Completed, now)| - |BucketList(ms, InProgress, now)|
  {
    BucketsPartition(ms, now);
    assert |multiset(BucketList(ms, Completed, now))| + |multiset(BucketList(ms, Upcoming, now))|
           + |multiset(BucketList(ms, InProgress, now))| == |multiset(ms)|;
    |BucketList(ms, Upcoming, now)|
  }
}
