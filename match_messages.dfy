/** The chat log of a match: the `match_messages` table, cursor pagination
    that returns the newest page oldest-first, and author-only deletion. */
module MatchMessages {
  import opened Common
  import opened Tables
  import opened Sorting

  /** A row of `match_messages`; `createdAt` is epoch milliseconds. */
  datatype MatchMessage = MatchMessage(
    id: string,
    matchId: string,
    userId: string,
    message: string,
    createdAt: int)

  datatype CreateMessageDto = CreateMessageDto(userId: string, message: string)

  /** The validation of the DTO: a non-empty text of at most 1000 characters. */
  predicate ValidDto(dto: CreateMessageDto) {
    0 < |dto.message| <= 1000
  }

  function IdOf(m: MatchMessage): string { m.id }
  function CreatedAtOf(m: MatchMessage): int { m.createdAt }

  function IndexOfMessage(messages: seq<MatchMessage>, id: string): Option<nat> {
    FindFirst(messages, (m: MatchMessage) => m.id == id)
  }

  /** The creation time of the cursor message, when `before` is given and
      names a stored message; otherwise no bound applies. */
  function CursorDate(messages: seq<MatchMessage>, before: Option<string>): (r: Option<int>)
    ensures r.Some? ==> Truthy(before) && HasKey(messages, IdOf, before.value)
    ensures Truthy(before) && HasKey(messages, IdOf, before.value) ==> r.Some?
  {
    if !Truthy(before) then None
    else
      match IndexOfMessage(messages, before.value)
      case None => None
      case Some(i) => assert IdOf(messages[i]) == before.value; Some(messages[i].createdAt)
  }

  predicate OlderThan(m: MatchMessage, bound: Option<int>) {
    bound.None? || m.createdAt < bound.value
  }

  /** The messages of the match, older than the bound when there is one. */
  function Qualifying(messages: seq<MatchMessage>, matchId: string, bound: Option<int>): seq<MatchMessage> {
    Filter(messages, (m: MatchMessage) => m.matchId == matchId && OlderThan(m, bound))
  }

  /** The query result before the reverse: newest first, at most `limit`
      rows (a limit of 0 applies none). */
  function Page(messages: seq<MatchMessage>, matchId: string, limit: nat, before: Option<string>): seq<MatchMessage> {
    Take(Sort(Qualifying(messages, matchId, CursorDate(messages, before)), Descending(CreatedAtOf)), limit)
  }

  /** A member of the qualifying rows is a message of the match within the bound. */
  lemma QualifyingMember(messages: seq<MatchMessage>, matchId: string, bound: Option<int>, x: MatchMessage)
    requires x in Qualifying(messages, matchId, bound)
    ensures x in messages && x.matchId == matchId && OlderThan(x, bound)
  {
    var q := Qualifying(messages, matchId, bound);
    var k :| 0 <= k < |q| && q[k] == x;
  }

  /** The rows of a sorted prefix come from the sorted rows, are sorted, and
      a row left out comes after every row kept. */
  lemma {:induction false} PrefixOfSorted(q: seq<MatchMessage>, le: (MatchMessage, MatchMessage) -> bool, limit: nat)
    requires Sorted(Sort(q, le), le)
    ensures var p := Take(Sort(q, le), limit);
      && (forall i :: 0 <= i < |p| ==> p[i] in q)
      && Sorted(p, le)
      && (forall i, x :: 0 <= i < |p| && x in q && x !in p ==> le(p[i], x))
      && ((limit == 0 || |q| <= limit) ==> p == Sort(q, le))
  {
    var s := Sort(q, le);
    var p := Take(s, limit);
    forall i | 0 <= i < |p| ensures p[i] in q {
      assert p[i] == s[i];
      assert p[i] in multiset(q);
    }
    forall i, j | 0 <= i < j < |p| ensures le(p[i], p[j]) {
      assert p[i] == s[i] && p[j] == s[j];
    }
    forall i, x | 0 <= i < |p| && x in q && x !in p ensures le(p[i], x) {
      assert x in multiset(s);
      var k :| 0 <= k < |s| && s[k] == x;
      assert p[i] == s[i];
      assert k >= |p|;
    }
  }

  /** Reversing a newest-first sequence puts it oldest first. */
  lemma ReverseOfNewestFirst(p: seq<MatchMessage>)
    requires Sorted(p, Descending(CreatedAtOf))
    ensures var r := Reverse(p); forall i, j :: 0 <= i < j < |r| ==> r[i].createdAt <= r[j].createdAt
  {
    var r := Reverse(p);
    forall i, j | 0 <= i < j < |r| ensures r[i].createdAt <= r[j].createdAt {
      assert r[i] == p[|p| - 1 - i] && r[j] == p[|p| - 1 - j];
      assert Descending(CreatedAtOf)(p[|p| - 1 - j], p[|p| - 1 - i]);
      assert CreatedAtOf(p[|p| - 1 - j]) >= CreatedAtOf(p[|p| - 1 - i]);
    }
  }

  /** The newest `limit` rows of `q`, reversed: sorted ascending, from `q`,
      and no row left out is newer than a row kept. */
  lemma NewestReversed(q: seq<MatchMessage>, limit: nat)
    ensures var r := Reverse(Take(Sort(q, Descending(CreatedAtOf)), limit));
      && (limit > 0 ==> |r| == if |q| < limit then |q| else limit)
      && (forall i :: 0 <= i < |r| ==> r[i] in q)
      && (forall i, j :: 0 <= i < j < |r| ==> r[i].createdAt <= r[j].createdAt)
      && (forall i, x :: 0 <= i < |r| && x in q && x !in r ==> x.createdAt <= r[i].createdAt)
      && ((limit == 0 || |q| <= limit) ==> multiset(r) == multiset(q))
  {
    var le := Descending(CreatedAtOf);
    var p := Take(Sort(q, le), limit);
    var r := Reverse(p);
    DescendingIsTotalPreorder(CreatedAtOf);
    SortSorted(q, le);
    PrefixOfSorted(q, le, limit);
    ReverseOfNewestFirst(p);
    assert (limit == 0 || |q| <= limit) ==> multiset(r) == multiset(q) by {
      ReverseMultiset(p);
    }
    NewestReversedMembers(q, p);
  }

  lemma NewestReversedMembers(q: seq<MatchMessage>, p: seq<MatchMessage>)
    requires forall i :: 0 <= i < |p| ==> p[i] in q
    requires forall i, x :: 0 <= i < |p| && x in q && x !in p ==> Descending(CreatedAtOf)(p[i], x)
    ensures var r := Reverse(p);
      && (forall i :: 0 <= i < |r| ==> r[i] in q)
      && (forall i, x :: 0 <= i < |r| && x in q && x !in r ==> x.createdAt <= r[i].createdAt)
  {
    var r := Reverse(p);
    forall i | 0 <= i < |r| ensures r[i] in q {
      assert r[i] == p[|p| - 1 - i];
    }
    forall i, x | 0 <= i < |r| && x in q && x !in r ensures x.createdAt <= r[i].createdAt {
      assert r[i] == p[|p| - 1 - i];
      ReverseMembers(p, x);
      assert Descending(CreatedAtOf)(p[|p| - 1 - i], x);
      assert CreatedAtOf(p[|p| - 1 - i]) >= CreatedAtOf(x);
    }
  }

  /** The messages qualify, are at most `limit`, come oldest first, and no
      qualifying message left out is newer than one returned. */
  lemma PageIsNewest(messages: seq<MatchMessage>, matchId: string, limit: nat, before: Option<string>)
    ensures var r := Reverse(Page(messages, matchId, limit, before));
      var q := Qualifying(messages, matchId, CursorDate(messages, before));
      && (limit > 0 ==> |r| == if |q| < limit then |q| else limit)
      && (forall i :: 0 <= i < |r| ==> r[i] in q && r[i].matchId == matchId)
      && (forall i, j :: 0 <= i < j < |r| ==> r[i].createdAt <= r[j].createdAt)
      && (forall i, x :: 0 <= i < |r| && x in q && x !in r ==> x.createdAt <= r[i].createdAt)
      && ((limit == 0 || |q| <= limit) ==> multiset(r) == multiset(q))
  {
    var bound := CursorDate(messages, before);
    var q := Qualifying(messages, matchId, bound);
    var r := Reverse(Page(messages, matchId, limit, before));
    NewestReversed(q, limit);
    forall i | 0 <= i < |r| ensures r[i].matchId == matchId {
      QualifyingMember(messages, matchId, bound, r[i]);
    }
  }

  /** What the service's reader promises of the reversed page. */
  lemma ReversedPage(messages: seq<MatchMessage>, matchId: string, limit: nat, before: Option<string>)
    ensures var r := Reverse(Page(messages, matchId, limit, before));
      && (limit > 0 ==> |r| <= limit)
      && (forall i :: 0 <= i < |r| ==> r[i].matchId == matchId)
      && (forall i, j :: 0 <= i < j < |r| ==> r[i].createdAt <= r[j].createdAt)
  {
    PageIsNewest(messages, matchId, limit, before);
  }

  /** Every message of a page with a resolvable cursor is strictly older than
      the cursor message. */
  lemma PageOlderThanCursor(messages: seq<MatchMessage>, matchId: string, limit: nat, cursorId: string, i: nat)
    requires cursorId != ""
    requires IndexOfMessage(messages, cursorId).Some?
    requires i < |Page(messages, matchId, limit, Some(cursorId))|
    ensures Page(messages, matchId, limit, Some(cursorId))[i].createdAt
      < messages[IndexOfMessage(messages, cursorId).value].createdAt
  {
    var bound := CursorDate(messages, Some(cursorId));
    var q := Qualifying(messages, matchId, bound);
    var s := Sort(q, Descending(CreatedAtOf));
    var p := Page(messages, matchId, limit, Some(cursorId));
    assert bound == Some(messages[IndexOfMessage(messages, cursorId).value].createdAt);
    assert p[i] == s[i];
    SameMembers(s, q);
    QualifyingMember(messages, matchId, bound, s[i]);
  }

  /** A `before` id that names no message is ignored: the page is the
      page without a cursor. */
  lemma UnresolvedCursorIgnored(messages: seq<MatchMessage>, matchId: string, limit: nat, before: Option<string>)
    requires before.Some? ==> IndexOfMessage(messages, before.value).None?
    ensures Page(messages, matchId, limit, before) == Page(messages, matchId, limit, None)
  {
  }

  /** `findRecentMessages`: the messages of the match created BEFORE `after`,
      oldest first, at most `limit` of them. */
  function Recent(messages: seq<MatchMessage>, matchId: string, after: int, limit: nat): seq<MatchMessage> {
    Take(Sort(Qualifying(messages, matchId, Some(after)), Ascending(CreatedAtOf)), limit)
  }

  /** The recent messages are the OLDEST qualifying ones, ascending, as
      many as `limit` allows, and all of them when `limit` is not reached. */
  lemma RecentIsOldest(messages: seq<MatchMessage>, matchId: string, after: int, limit: nat)
    ensures var r := Recent(messages, matchId, after, limit);
      var q := Qualifying(messages, matchId, Some(after));
      && (limit > 0 ==> |r| == if |q| < limit then |q| else limit)
      && (forall i :: 0 <= i < |r| ==> r[i] in q && r[i].matchId == matchId && r[i].createdAt < after)
      && Sorted(r, Ascending(CreatedAtOf))
      && (forall i, x :: 0 <= i < |r| && x in q && x !in r ==> r[i].createdAt <= x.createdAt)
      && ((limit == 0 || |q| <= limit) ==> multiset(r) == multiset(q))
  {
    var q := Qualifying(messages, matchId, Some(after));
    var le := Ascending(CreatedAtOf);
    var r := Take(Sort(q, le), limit);
    assert r == Recent(messages, matchId, after, limit);
    AscendingIsTotalPreorder(CreatedAtOf);
    SortSorted(q, le);
    PrefixOfSorted(q, le, limit);
    forall i | 0 <= i < |r| ensures r[i].matchId == matchId && r[i].createdAt < after {
      QualifyingMember(messages, matchId, Some(after), r[i]);
    }
    forall i, x | 0 <= i < |r| && x in q && x !in r ensures r[i].createdAt <= x.createdAt {
      assert le(r[i], x);
      assert CreatedAtOf(r[i]) <= CreatedAtOf(x);
    }
  }

  /** `delete`: a missing message and another user's message give the same
      NotFound; the author's message is removed. */
  function DeleteFrom(messages: seq<MatchMessage>, messageId: string, userId: string): Result<seq<MatchMessage>> {
    match IndexOfMessage(messages, messageId)
    case None => Err(NotFound)
    case Some(i) =>
      if messages[i].userId != userId then Err(NotFound)
      else Ok(RemoveAt(messages, i))
  }

  /** Deletion fails, always with NotFound, exactly when the user is not
      the author of a stored message with that id. */
  lemma DeleteErrors(messages: seq<MatchMessage>, messageId: string, userId: string)
    requires DistinctBy(messages, IdOf)
    ensures var r := DeleteFrom(messages, messageId, userId);
      && (r.Err? ==> r.error == NotFound)
      && (r.Err? <==> !exists i :: 0 <= i < |messages| && messages[i].id == messageId && messages[i].userId == userId)
  {
    match IndexOfMessage(messages, messageId)
    case None =>
    case Some(i) =>
      forall j | 0 <= j < |messages| && messages[j].id == messageId ensures j == i {
        assert IdOf(messages[j]) == IdOf(messages[i]);
      }
  }

  /** The author's deletion removes that one message and keeps the others
      in order. */
  lemma DeleteRemovesOne(messages: seq<MatchMessage>, i: nat, userId: string)
    requires DistinctBy(messages, IdOf)
    requires i < |messages| && messages[i].userId == userId
    ensures var r := DeleteFrom(messages, messages[i].id, userId);
      && r.Ok?
      && multiset(r.value) == multiset(messages) - multiset{messages[i]}
      && r.value == messages[..i] + messages[i + 1..]
      && !HasKey(r.value, IdOf, messages[i].id)
  {
    var k := IndexOfMessage(messages, messages[i].id).value;
    assert IdOf(messages[k]) == IdOf(messages[i]);
    var r := RemoveAt(messages, i);
    forall j | 0 <= j < |r| ensures IdOf(r[j]) != messages[i].id {
      var j' := if j < i then j else j + 1;
      assert r[j] == messages[j'];
      assert IdOf(messages[j']) != IdOf(messages[i]);
    }
  }

  /** `Array.prototype.reverse`: reverses the array in place. */
  method ReverseInPlace<T>(a: array<T>)
    modifies a
    ensures a[..] == Reverse(old(a[..]))
  {
    var n := a.Length;
    var i := 0;
    while i < n / 2
      invariant 0 <= i <= n / 2
      invariant forall k :: 0 <= k < i ==> a[k] == old(a[n - 1 - k]) && a[n - 1 - k] == old(a[k])
      invariant forall k :: i <= k < n - i ==> a[k] == old(a[k])
    {
      a[i], a[n - 1 - i] := a[n - 1 - i], a[i];
      i := i + 1;
    }
    assert forall k :: 0 <= k < n ==> a[k] == Reverse(old(a[..]))[k];
  }

  /** A fresh array holding the rows of `s`. */
  method ArrayOf<T>(s: seq<T>) returns (a: array<T>)
    ensures fresh(a) && a[..] == s
  {
    a := new T[|s|](k requires 0 <= k < |s| => s[k]);
  }

  class MatchMessagesService {
    var messages: seq<MatchMessage>

    ghost predicate Valid()
      reads this
    {
      DistinctBy(messages, IdOf)
    }

    constructor ()
      ensures Valid() && messages == []
    {
      messages := [];
    }

    /** `create`: the new message, stamped with the creation time, is
        inserted only when its match and its author are stored (`matchIds`
        and `userIds`); otherwise a foreign key refuses it. */
    method Create(matchId: string, dto: CreateMessageDto, newId: string, now: int,
                  matchIds: set<string>, userIds: set<string>) returns (r: Result<MatchMessage>)
      requires Valid()
      requires ValidDto(dto)
      requires !HasKey(messages, IdOf, newId)
      modifies this
      ensures Valid()
      ensures (matchId !in matchIds || dto.userId !in userIds) ==> r == Err(ForeignKeyViolation) && messages == old(messages)
      ensures matchId in matchIds && dto.userId in userIds ==>
        && r == Ok(MatchMessage(newId, matchId, dto.userId, dto.message, now))
        && messages == old(messages) + [r.value]
    {
      if matchId !in matchIds || dto.userId !in userIds {
        return Err(ForeignKeyViolation);
      }
      var m := MatchMessage(newId, matchId, dto.userId, dto.message, now);
      messages := messages + [m];
      r := Ok(m);
    }

    /** `findByMatchId`: the newest `limit` messages of the match older than
        the cursor message, reversed into chronological order. */
    method FindByMatchId(matchId: string, limit: nat, before: Option<string>) returns (r: seq<MatchMessage>)
      ensures r == Reverse(Page(messages, matchId, limit, before))
      ensures limit > 0 ==> |r| <= limit
      ensures forall i :: 0 <= i < |r| ==> r[i].matchId == matchId
      ensures forall i, j :: 0 <= i < j < |r| ==> r[i].createdAt <= r[j].createdAt
    {
      var page := Page(messages, matchId, limit, before);
      var a := ArrayOf(page);
      ReverseInPlace(a);
      r := a[..];
      ReversedPage(messages, matchId, limit, before);
    }

    /** `findRecentMessages`: the oldest `limit` messages of the match created
        before `after`, ascending. */
    method FindRecentMessages(matchId: string, after: int, limit: nat) returns (r: seq<MatchMessage>)
      ensures r == Recent(messages, matchId, after, limit)
      ensures forall i :: 0 <= i < |r| ==> r[i].matchId == matchId && r[i].createdAt < after
      ensures Sorted(r, Ascending(CreatedAtOf))
    {
      r := Recent(messages, matchId, after, limit);
      RecentIsOldest(messages, matchId, after, limit);
    }

    /** `delete`: NotFound leaves the log unchanged; success removes the row. */
    method Delete(messageId: string, userId: string) returns (r: Result<()>)
      requires Valid()
      modifies this
      ensures Valid()
      ensures DeleteFrom(old(messages), messageId, userId).Err? ==> r == Err(NotFound) && messages == old(messages)
      ensures DeleteFrom(old(messages), messageId, userId).Ok? ==>
        r == Ok(()) && messages == DeleteFrom(old(messages), messageId, userId).value
    {
      DeleteErrors(messages, messageId, userId);
      var found := IndexOfMessage(messages, messageId);
      if found.None? {
        return Err(NotFound);
      }
      var i := found.value;
      if messages[i].userId != userId {
        return Err(NotFound);
      }
      var s := RemoveAt(messages, i);
      forall a, b | 0 <= a < b < |s| ensures IdOf(s[a]) != IdOf(s[b]) {
        assert s[a] == messages[if a < i then a else a + 1];
        assert s[b] == messages[if b < i then b else b + 1];
      }
      messages := s;
      r := Ok(());
    }
  }
}
