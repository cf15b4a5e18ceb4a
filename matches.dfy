/** The match lifecycle manager: the `matches` table, the `match_players`
    roster table, and the operations of `MatchesService` over both. */
module Matches {
  import opened Common
  import opened Tables
  import opened Sorting

  datatype MatchStatus = Pending | InProgress | Completed | Cancelled

  datatype Team = Unassigned | TeamA | TeamB

  /** A row of `matches`; dates are epoch milliseconds. */
  datatype Match = Match(
    matchId: string,
    clubId: string,
    courtId: Option<string>,
    startDate: int,
    endDate: int,
    category: int,
    status: MatchStatus,
    password: Option<string>,
    isCourtScheduled: bool)

  /** A row of `match_players`: one roster entry. */
  datatype MatchPlayer = MatchPlayer(
    id: string,
    matchId: string,
    userId: string,
    team: Team,
    joinedAt: int)

  /** What `findOne` returns: the match with its roster loaded. */
  datatype MatchView = MatchView(m: Match, players: seq<MatchPlayer>)

  datatype CreateMatchDto = CreateMatchDto(
    clubId: string,
    courtId: Option<string>,
    startDate: int,
    endDate: int,
    category: int,
    status: Option<MatchStatus>,
    password: Option<string>,
    isCourtScheduled: Option<bool>)

  /** A partial match: the fields an update provides. */
  datatype UpdateMatchDto = UpdateMatchDto(
    clubId: Option<string>,
    courtId: Option<string>,
    startDate: Option<int>,
    endDate: Option<int>,
    category: Option<int>,
    status: Option<MatchStatus>,
    password: Option<string>,
    isCourtScheduled: Option<bool>)

  function MatchIdOf(m: Match): string { m.matchId }
  function StartDateOf(m: Match): int { m.startDate }
  function PlayerIdOf(p: MatchPlayer): string { p.id }
  function JoinedAtOf(p: MatchPlayer): int { p.joinedAt }
  function PairOf(p: MatchPlayer): (string, string) { (p.matchId, p.userId) }

  function IndexOfMatch(matches: seq<Match>, matchId: string): Option<nat> {
    FindFirst(matches, (m: Match) => m.matchId == matchId)
  }

  function IndexOfEntry(players: seq<MatchPlayer>, matchId: string, userId: string): Option<nat> {
    FindFirst(players, (p: MatchPlayer) => p.matchId == matchId && p.userId == userId)
  }

  /** The roster of a match, in table order. */
  function RosterOf(players: seq<MatchPlayer>, matchId: string): seq<MatchPlayer> {
    Filter(players, (p: MatchPlayer) => p.matchId == matchId)
  }

  /** The table invariant: primary keys are unique, at most one roster entry
      per (match, user), and every entry references a match (a foreign key). */
  ghost predicate TablesValid(matches: seq<Match>, players: seq<MatchPlayer>) {
    && DistinctBy(matches, MatchIdOf)
    && DistinctBy(players, PlayerIdOf)
    && DistinctBy(players, PairOf)
    && forall i :: 0 <= i < |players| ==> HasKey(matches, MatchIdOf, players[i].matchId)
  }

  /** `findOne(matchId)` with its relations. */
  function LookupMatch(matches: seq<Match>, players: seq<MatchPlayer>, matchId: string): (r: Result<MatchView>)
    ensures r.Err? <==> !HasKey(matches, MatchIdOf, matchId)
    ensures r.Err? ==> r.error == NotFound
    ensures r.Ok? ==> r.value.m in matches && r.value.m.matchId == matchId
    ensures r.Ok? ==> r.value.players == RosterOf(players, matchId)
  {
    match IndexOfMatch(matches, matchId)
    case None => Err(NotFound)
    case Some(i) => Ok(MatchView(matches[i], RosterOf(players, matchId)))
  }

  /** `Object.assign(match, dto)`: each provided field overwrites, the others
      and the primary key stay. */
  function ApplyUpdate(m: Match, dto: UpdateMatchDto): (r: Match)
    ensures r.matchId == m.matchId
    ensures r.clubId == dto.clubId.GetOr(m.clubId)
    ensures r.courtId == (if dto.courtId.Some? then dto.courtId else m.courtId)
    ensures r.startDate == dto.startDate.GetOr(m.startDate)
    ensures r.endDate == dto.endDate.GetOr(m.endDate)
    ensures r.category == dto.category.GetOr(m.category)
    ensures r.status == dto.status.GetOr(m.status)
    ensures r.password == (if dto.password.Some? then dto.password else m.password)
    ensures r.isCourtScheduled == dto.isCourtScheduled.GetOr(m.isCourtScheduled)
  {
    m.(clubId := dto.clubId.GetOr(m.clubId),
       courtId := if dto.courtId.Some? then dto.courtId else m.courtId,
       startDate := dto.startDate.GetOr(m.startDate),
       endDate := dto.endDate.GetOr(m.endDate),
       category := dto.category.GetOr(m.category),
       status := dto.status.GetOr(m.status),
       password := if dto.password.Some? then dto.password else m.password,
       isCourtScheduled := dto.isCourtScheduled.GetOr(m.isCourtScheduled))
  }

  /** An update with no fields changes nothing. */
  lemma EmptyUpdateIsIdentity(m: Match)
    ensures ApplyUpdate(m, UpdateMatchDto(None, None, None, None, None, None, None, None)) == m
  {
  }

  /** Updating is idempotent: applying the same fields twice is applying them once. */
  lemma UpdateIdempotent(m: Match, dto: UpdateMatchDto)
    ensures ApplyUpdate(ApplyUpdate(m, dto), dto) == ApplyUpdate(m, dto)
  {
  }

  // -----------------------------------------------------------------------
  // Roster lemmas

  /** A new entry for an unrostered (match, user) keeps the roster invariant. */
  lemma {:induction false} AddEntryKeepsValid(matches: seq<Match>, players: seq<MatchPlayer>, entry: MatchPlayer)
    requires TablesValid(matches, players)
    requires HasKey(matches, MatchIdOf, entry.matchId)
    requires IndexOfEntry(players, entry.matchId, entry.userId).None?
    requires !HasKey(players, PlayerIdOf, entry.id)
    ensures TablesValid(matches, players + [entry])
  {
    var s := players + [entry];
    forall i, j | 0 <= i < j < |s| ensures PairOf(s[i]) != PairOf(s[j]) && PlayerIdOf(s[i]) != PlayerIdOf(s[j]) {
      if j == |players| {
        assert s[j] == entry;
        assert s[i] == players[i];
        assert !(players[i].matchId == entry.matchId && players[i].userId == entry.userId);
      }
    }
  }

  /** Once an entry is added, the same (match, user) is found, so a second
      `addPlayer` conflicts. */
  lemma AddedEntryIsFound(players: seq<MatchPlayer>, entry: MatchPlayer)
    ensures IndexOfEntry(players + [entry], entry.matchId, entry.userId).Some?
  {
    var s := players + [entry];
    assert s[|players|] == entry;
  }

  /** Removing a row keeps the invariant of the rest. */
  lemma RemoveEntryKeepsValid(matches: seq<Match>, players: seq<MatchPlayer>, i: nat)
    requires TablesValid(matches, players)
    requires i < |players|
    ensures TablesValid(matches, RemoveAt(players, i))
  {
    var r := RemoveAt(players, i);
    forall a, b | 0 <= a < b < |r| ensures PairOf(r[a]) != PairOf(r[b]) && PlayerIdOf(r[a]) != PlayerIdOf(r[b]) {
      var a' := if a < i then a else a + 1;
      var b' := if b < i then b else b + 1;
      assert r[a] == players[a'] && r[b] == players[b'];
    }
    forall k | 0 <= k < |r| ensures HasKey(matches, MatchIdOf, r[k].matchId) {
      assert r[k] == players[if k < i then k else k + 1];
    }
  }

  /** Removing a match that has no roster entries keeps the invariant: no
      entry loses the match it references. */
  lemma RemoveMatchKeepsValid(matches: seq<Match>, players: seq<MatchPlayer>, i: nat)
    requires TablesValid(matches, players)
    requires i < |matches|
    requires RosterOf(players, matches[i].matchId) == []
    ensures TablesValid(RemoveAt(matches, i), players)
  {
    var s := RemoveAt(matches, i);
    forall a, b | 0 <= a < b < |s| ensures MatchIdOf(s[a]) != MatchIdOf(s[b]) {
      assert s[a] == matches[if a < i then a else a + 1];
      assert s[b] == matches[if b < i then b else b + 1];
    }
    FilterMembers(players, (p: MatchPlayer) => p.matchId == matches[i].matchId);
    forall k | 0 <= k < |players| ensures HasKey(s, MatchIdOf, players[k].matchId) {
      var j :| 0 <= j < |matches| && MatchIdOf(matches[j]) == players[k].matchId;
      assert players[k] !in RosterOf(players, matches[i].matchId);
      assert j != i;
      assert s[if j < i then j else j - 1] == matches[j];
    }
  }

  /** Removing a roster entry of a match shortens that match's roster by one
      and leaves no entry for the pair. */
  lemma RemoveEntryShrinksRoster(matches: seq<Match>, players: seq<MatchPlayer>, i: nat)
    requires TablesValid(matches, players)
    requires i < |players|
    ensures |RosterOf(RemoveAt(players, i), players[i].matchId)| == |RosterOf(players, players[i].matchId)| - 1
    ensures IndexOfEntry(RemoveAt(players, i), players[i].matchId, players[i].userId).None?
  {
    var m := players[i].matchId;
    var p := (q: MatchPlayer) => q.matchId == m;
    assert players == players[..i] + [players[i]] + players[i + 1..];
    FilterAppend(players[..i] + [players[i]], players[i + 1..], p);
    FilterAppend(players[..i], [players[i]], p);
    FilterAppend(players[..i], players[i + 1..], p);
    var r := RemoveAt(players, i);
    forall k | 0 <= k < |r| ensures !(r[k].matchId == m && r[k].userId == players[i].userId) {
      var k' := if k < i then k else k + 1;
      assert r[k] == players[k'];
      assert PairOf(players[k']) != PairOf(players[i]);
    }
  }

  /** Changing the team of an entry keeps the invariant. */
  lemma SetTeamKeepsValid(matches: seq<Match>, players: seq<MatchPlayer>, i: nat, team: Team)
    requires TablesValid(matches, players)
    requires i < |players|
    ensures TablesValid(matches, players[i := players[i].(team := team)])
  {
    var s := players[i := players[i].(team := team)];
    forall a, b | 0 <= a < b < |s| ensures PairOf(s[a]) != PairOf(s[b]) && PlayerIdOf(s[a]) != PlayerIdOf(s[b]) {
      assert PairOf(s[a]) == PairOf(players[a]) && PairOf(s[b]) == PairOf(players[b]);
    }
    forall k | 0 <= k < |s| ensures HasKey(matches, MatchIdOf, s[k].matchId) {
      assert s[k].matchId == players[k].matchId;
    }
  }

  /** Updating a match keeps its key, so the invariant holds. */
  lemma UpdateMatchKeepsValid(matches: seq<Match>, players: seq<MatchPlayer>, i: nat, dto: UpdateMatchDto)
    requires TablesValid(matches, players)
    requires i < |matches|
    ensures TablesValid(matches[i := ApplyUpdate(matches[i], dto)], players)
  {
    var s := matches[i := ApplyUpdate(matches[i], dto)];
    forall k | 0 <= k < |players| ensures HasKey(s, MatchIdOf, players[k].matchId) {
      var j :| 0 <= j < |matches| && MatchIdOf(matches[j]) == players[k].matchId;
      assert MatchIdOf(s[j]) == MatchIdOf(matches[j]);
    }
  }

  // -----------------------------------------------------------------------
  // findByUserId

  /** `matchPlayers.map(mp => mp.match)`: the match each roster row references. */
  function MatchesOfRows(matches: seq<Match>, rows: seq<MatchPlayer>): (r: seq<Match>)
    ensures forall i :: 0 <= i < |r| ==> r[i] in matches
  {
    if rows == [] then []
    else
      var head := match IndexOfMatch(matches, rows[0].matchId)
        case None => []
        case Some(k) => [matches[k]];
      head + MatchesOfRows(matches, rows[1..])
  }

  /** The user's roster rows, newest join first, mapped to their matches,
      de-duplicated by match id and sorted by start date, latest first. */
  function UserMatches(matches: seq<Match>, players: seq<MatchPlayer>, userId: string): seq<Match> {
    var rows := Sort(Filter(players, (p: MatchPlayer) => p.userId == userId), Descending(JoinedAtOf));
    Sort(DedupeBy(MatchesOfRows(matches, rows), MatchIdOf), Descending(StartDateOf))
  }

  /** The user is rostered in the match. */
  predicate Rostered(players: seq<MatchPlayer>, matchId: string, userId: string) {
    exists i :: 0 <= i < |players| && players[i].matchId == matchId && players[i].userId == userId
  }

  lemma {:induction false} MatchesOfRowsComplete(matches: seq<Match>, rows: seq<MatchPlayer>, k: nat)
    requires k < |rows|
    requires HasKey(matches, MatchIdOf, rows[k].matchId)
    ensures HasKey(MatchesOfRows(matches, rows), MatchIdOf, rows[k].matchId)
  {
    var r := MatchesOfRows(matches, rows);
    var head := match IndexOfMatch(matches, rows[0].matchId)
      case None => []
      case Some(j) => [matches[j]];
    assert r == head + MatchesOfRows(matches, rows[1..]);
    if k == 0 {
      var j := IndexOfMatch(matches, rows[0].matchId).value;
      assert r[0] == matches[j];
    } else {
      MatchesOfRowsComplete(matches, rows[1..], k - 1);
      var i :| 0 <= i < |MatchesOfRows(matches, rows[1..])| && MatchIdOf(MatchesOfRows(matches, rows[1..])[i]) == rows[k].matchId;
      assert r[|head| + i] == MatchesOfRows(matches, rows[1..])[i];
    }
  }

  lemma {:induction false} MatchesOfRowsSound(matches: seq<Match>, rows: seq<MatchPlayer>, k: nat)
    requires k < |MatchesOfRows(matches, rows)|
    ensures exists i :: 0 <= i < |rows| && rows[i].matchId == MatchesOfRows(matches, rows)[k].matchId
  {
    var r := MatchesOfRows(matches, rows);
    var head := match IndexOfMatch(matches, rows[0].matchId)
      case None => []
      case Some(j) => [matches[j]];
    assert r == head + MatchesOfRows(matches, rows[1..]);
    if k < |head| {
      assert rows[0].matchId == r[k].matchId;
    } else {
      MatchesOfRowsSound(matches, rows[1..], k - |head|);
      var i :| 0 <= i < |rows[1..]| && rows[1..][i].matchId == MatchesOfRows(matches, rows[1..])[k - |head|].matchId;
      assert rows[i + 1].matchId == r[k].matchId;
    }
  }

  /** The query's stages, named for the proofs below. */
  function UserRows(players: seq<MatchPlayer>, userId: string): seq<MatchPlayer> {
    Sort(Filter(players, (p: MatchPlayer) => p.userId == userId), Descending(JoinedAtOf))
  }

  function UserDeduped(matches: seq<Match>, players: seq<MatchPlayer>, userId: string): seq<Match> {
    DedupeBy(MatchesOfRows(matches, UserRows(players, userId)), MatchIdOf)
  }

  lemma UserMatchesUnfold(matches: seq<Match>, players: seq<MatchPlayer>, userId: string)
    ensures UserMatches(matches, players, userId) == Sort(UserDeduped(matches, players, userId), Descending(StartDateOf))
  {
  }

  /** The user's rows are exactly the roster rows naming the user. */
  lemma UserRowsMembers(players: seq<MatchPlayer>, userId: string)
    ensures forall p :: p in UserRows(players, userId) <==> p in players && p.userId == userId
  {
    var mine := Filter(players, (p: MatchPlayer) => p.userId == userId);
    SameMembers(Sort(mine, Descending(JoinedAtOf)), mine);
    FilterMembers(players, (p: MatchPlayer) => p.userId == userId);
  }

  /** A match of the de-duplicated list exists and has the user on its roster. */
  lemma UserDedupedSound(matches: seq<Match>, players: seq<MatchPlayer>, userId: string, x: Match)
    requires x in UserDeduped(matches, players, userId)
    ensures x in matches && Rostered(players, x.matchId, userId)
  {
    var rows := UserRows(players, userId);
    var ms := MatchesOfRows(matches, rows);
    assert x in ms;
    var mi :| 0 <= mi < |ms| && ms[mi] == x;
    MatchesOfRowsSound(matches, rows, mi);
    var ri :| 0 <= ri < |rows| && rows[ri].matchId == x.matchId;
    UserRowsMembers(players, userId);
    assert rows[ri] in rows;
    var pi :| 0 <= pi < |players| && players[pi] == rows[ri];
  }

  /** Every listed match exists and has the user on its roster. */
  lemma UserMatchesSound(matches: seq<Match>, players: seq<MatchPlayer>, userId: string)
    ensures var r := UserMatches(matches, players, userId);
      forall i :: 0 <= i < |r| ==> r[i] in matches && Rostered(players, r[i].matchId, userId)
  {
    var d := UserDeduped(matches, players, userId);
    var r := UserMatches(matches, players, userId);
    UserMatchesUnfold(matches, players, userId);
    SameMembers(r, d);
    forall x | x in r ensures x in matches && Rostered(players, x.matchId, userId) {
      UserDedupedSound(matches, players, userId, x);
    }
  }

  /** Every match the user is rostered in is listed. */
  lemma UserMatchesComplete(matches: seq<Match>, players: seq<MatchPlayer>, userId: string, m: Match)
    requires DistinctBy(matches, MatchIdOf)
    requires m in matches && Rostered(players, m.matchId, userId)
    ensures m in UserMatches(matches, players, userId)
  {
    var rows := UserRows(players, userId);
    var ms := MatchesOfRows(matches, rows);
    var d := UserDeduped(matches, players, userId);
    UserMatchesUnfold(matches, players, userId);
    UserRowsMembers(players, userId);
    var pi :| 0 <= pi < |players| && players[pi].matchId == m.matchId && players[pi].userId == userId;
    assert players[pi] in rows;
    var ri :| 0 <= ri < |rows| && rows[ri] == players[pi];
    assert HasKey(matches, MatchIdOf, rows[ri].matchId) by {
      var mj :| 0 <= mj < |matches| && matches[mj] == m;
      assert MatchIdOf(matches[mj]) == rows[ri].matchId;
    }
    MatchesOfRowsComplete(matches, rows, ri);
    var mk :| 0 <= mk < |ms| && MatchIdOf(ms[mk]) == m.matchId;
    assert HasKey(d, MatchIdOf, MatchIdOf(ms[mk]));
    var dk :| 0 <= dk < |d| && MatchIdOf(d[dk]) == m.matchId;
    assert d[dk] in ms;
    SameIdSameMatch(matches, d[dk], m);
    SameMembers(UserMatches(matches, players, userId), d);
  }

  /** `findByUserId` lists every match the user is rostered in, exactly
      once, and nothing else, latest start first. */
  lemma UserMatchesCorrect(matches: seq<Match>, players: seq<MatchPlayer>, userId: string)
    requires TablesValid(matches, players)
    ensures var r := UserMatches(matches, players, userId);
      && (forall i :: 0 <= i < |r| ==> r[i] in matches && Rostered(players, r[i].matchId, userId))
      && (forall m :: m in matches && Rostered(players, m.matchId, userId) ==> m in r)
      && (forall i, j :: 0 <= i < j < |r| ==> r[i].matchId != r[j].matchId)
      && Sorted(r, Descending(StartDateOf))
  {
    UserMatchesUnfold(matches, players, userId);
    var d := UserDeduped(matches, players, userId);
    DescendingIsTotalPreorder(StartDateOf);
    SortSorted(d, Descending(StartDateOf));
    SortDistinctBy(d, Descending(StartDateOf), MatchIdOf);
    UserMatchesSound(matches, players, userId);
    forall m | m in matches && Rostered(players, m.matchId, userId)
      ensures m in UserMatches(matches, players, userId)
    {
      UserMatchesComplete(matches, players, userId, m);
    }
  }

  lemma SameIdSameMatch(matches: seq<Match>, a: Match, b: Match)
    requires DistinctBy(matches, MatchIdOf)
    requires a in matches && b in matches && a.matchId == b.matchId
    ensures a == b
  {
    var i :| 0 <= i < |matches| && matches[i] == a;
    var j :| 0 <= j < |matches| && matches[j] == b;
    assert MatchIdOf(matches[i]) == MatchIdOf(matches[j]);
  }

  // -----------------------------------------------------------------------
  // The service

  class MatchesService {
    var matches: seq<Match>
    var players: seq<MatchPlayer>

    ghost predicate Valid()
      reads this
    {
      TablesValid(matches, players)
    }

    constructor ()
      ensures Valid() && matches == [] && players == []
    {
      matches := [];
      players := [];
    }

    /** `create`: the new match, PENDING unless the DTO sets a status. */
    method Create(dto: CreateMatchDto, newId: string, clubIds: set<string>) returns (r: Result<Match>)
      requires Valid()
      requires !HasKey(matches, MatchIdOf, newId)
      modifies this
      ensures Valid() && players == old(players)
      ensures dto.clubId !in clubIds ==> r == Err(ForeignKeyViolation) && matches == old(matches)
      ensures dto.clubId in clubIds ==> r.Ok? && matches == old(matches) + [r.value]
      ensures r.Ok? ==>
        var m := r.value;
        && m.matchId == newId && m.clubId == dto.clubId && m.courtId == dto.courtId
        && m.startDate == dto.startDate && m.endDate == dto.endDate && m.category == dto.category
        && m.status == dto.status.GetOr(Pending) && m.password == dto.password
        && m.isCourtScheduled == dto.isCourtScheduled.GetOr(false)
    {
      if dto.clubId !in clubIds {
        return Err(ForeignKeyViolation);
      }
      var m := Match(newId, dto.clubId, dto.courtId, dto.startDate, dto.endDate, dto.category,
                     dto.status.GetOr(Pending), dto.password, dto.isCourtScheduled.GetOr(false));
      var s := matches + [m];
      forall k | 0 <= k < |players| ensures HasKey(s, MatchIdOf, players[k].matchId) {
        var j :| 0 <= j < |matches| && MatchIdOf(matches[j]) == players[k].matchId;
        assert s[j] == matches[j];
      }
      matches := s;
      r := Ok(m);
    }

    /** `findAll`: every match, latest start first. */
    method FindAll() returns (r: seq<Match>)
      ensures multiset(r) == multiset(matches)
      ensures Sorted(r, Descending(StartDateOf))
    {
      DescendingIsTotalPreorder(StartDateOf);
      SortSorted(matches, Descending(StartDateOf));
      r := Sort(matches, Descending(StartDateOf));
    }

    /** `findOne`: NotFound for an unknown id, otherwise the match and its roster. */
    method FindOne(matchId: string) returns (r: Result<MatchView>)
      ensures r.Err? <==> !HasKey(matches, MatchIdOf, matchId)
      ensures r.Err? ==> r.error == NotFound
      ensures r.Ok? ==> r.value.m in matches && r.value.m.matchId == matchId
      ensures r.Ok? ==> r.value.players == RosterOf(players, matchId)
    {
      r := LookupMatch(matches, players, matchId);
    }

    /** `update`: merges the provided fields into the stored match. */
    method Update(matchId: string, dto: UpdateMatchDto) returns (r: Result<Match>)
      requires Valid()
      modifies this
      ensures Valid() && players == old(players)
      ensures IndexOfMatch(old(matches), matchId).None? ==> r == Err(NotFound) && matches == old(matches)
      ensures IndexOfMatch(old(matches), matchId).Some? ==>
        var i := IndexOfMatch(old(matches), matchId).value;
        && r == Ok(ApplyUpdate(old(matches)[i], dto))
        && matches == old(matches)[i := ApplyUpdate(old(matches)[i], dto)]
    {
      var found := IndexOfMatch(matches, matchId);
      if found.None? {
        return Err(NotFound);
      }
      var i := found.value;
      var updated := ApplyUpdate(matches[i], dto);
      UpdateMatchKeepsValid(matches, players, i, dto);
      matches := matches[i := updated];
      r := Ok(updated);
    }

    /** `remove`: NotFound for an unknown id; a match with roster entries is
        kept by the NO ACTION foreign key of `match_players`. */
    method Remove(matchId: string) returns (r: Result<()>)
      requires Valid()
      modifies this
      ensures Valid() && players == old(players)
      ensures IndexOfMatch(old(matches), matchId).None? ==> r == Err(NotFound) && matches == old(matches)
      ensures IndexOfMatch(old(matches), matchId).Some? && RosterOf(old(players), matchId) != [] ==>
        r == Err(ForeignKeyViolation) && matches == old(matches)
      ensures IndexOfMatch(old(matches), matchId).Some? && RosterOf(old(players), matchId) == [] ==>
        r == Ok(()) && matches == RemoveAt(old(matches), IndexOfMatch(old(matches), matchId).value)
    {
      var found := IndexOfMatch(matches, matchId);
      if found.None? {
        return Err(NotFound);
      }
      if RosterOf(players, matchId) != [] {
        return Err(ForeignKeyViolation);
      }
      RemoveMatchKeepsValid(matches, players, found.value);
      matches := RemoveAt(matches, found.value);
      r := Ok(());
    }

    /** `addPlayer`: NotFound for an unknown match, Conflict when the user is
        already rostered, otherwise one new entry, UNASSIGNED unless a team
        is given, and the refreshed match. */
    method AddPlayer(matchId: string, userId: string, team: Option<Team>, newId: string, now: int, userIds: set<string>)
      returns (r: Result<MatchView>)
      requires Valid()
      requires !HasKey(players, PlayerIdOf, newId)
      modifies this
      ensures Valid() && matches == old(matches)
      ensures IndexOfMatch(matches, matchId).None? ==> r == Err(NotFound) && players == old(players)
      ensures IndexOfMatch(matches, matchId).Some? && IndexOfEntry(old(players), matchId, userId).Some? ==>
        r == Err(Conflict) && players == old(players)
      ensures IndexOfMatch(matches, matchId).Some? && IndexOfEntry(old(players), matchId, userId).None? && userId !in userIds ==>
        r == Err(ForeignKeyViolation) && players == old(players)
      ensures IndexOfMatch(matches, matchId).Some? && IndexOfEntry(old(players), matchId, userId).None? && userId in userIds ==>
        && players == old(players) + [MatchPlayer(newId, matchId, userId, team.GetOr(Unassigned), now)]
        && r == LookupMatch(matches, players, matchId) && r.Ok?
    {
      var found := IndexOfMatch(matches, matchId);
      if found.None? {
        return Err(NotFound);
      }
      if IndexOfEntry(players, matchId, userId).Some? {
        return Err(Conflict);
      }
      if userId !in userIds {
        return Err(ForeignKeyViolation);
      }
      var entry := MatchPlayer(newId, matchId, userId, team.GetOr(Unassigned), now);
      assert MatchIdOf(matches[found.value]) == matchId;
      AddEntryKeepsValid(matches, players, entry);
      players := players + [entry];
      r := LookupMatch(matches, players, matchId);
    }

    /** `removePlayer`: NotFound without an entry, otherwise that entry goes. */
    method RemovePlayer(matchId: string, userId: string) returns (r: Result<MatchView>)
      requires Valid()
      modifies this
      ensures Valid() && matches == old(matches)
      ensures IndexOfEntry(old(players), matchId, userId).None? ==> r == Err(NotFound) && players == old(players)
      ensures IndexOfEntry(old(players), matchId, userId).Some? ==>
        && players == RemoveAt(old(players), IndexOfEntry(old(players), matchId, userId).value)
        && r == LookupMatch(matches, players, matchId) && r.Ok?
    {
      var found := IndexOfEntry(players, matchId, userId);
      if found.None? {
        return Err(NotFound);
      }
      var i := found.value;
      RemoveEntryKeepsValid(matches, players, i);
      assert HasKey(matches, MatchIdOf, players[i].matchId);
      players := RemoveAt(players, i);
      r := LookupMatch(matches, players, matchId);
    }

    /** `updatePlayerTeam`: NotFound without an entry, otherwise only that
        entry's team changes. */
    method UpdatePlayerTeam(matchId: string, userId: string, team: Team) returns (r: Result<MatchView>)
      requires Valid()
      modifies this
      ensures Valid() && matches == old(matches)
      ensures IndexOfEntry(old(players), matchId, userId).None? ==> r == Err(NotFound) && players == old(players)
      ensures IndexOfEntry(old(players), matchId, userId).Some? ==>
        var i := IndexOfEntry(old(players), matchId, userId).value;
        && players == old(players)[i := old(players)[i].(team := team)]
        && r == LookupMatch(matches, players, matchId) && r.Ok?
    {
      var found := IndexOfEntry(players, matchId, userId);
      if found.None? {
        return Err(NotFound);
      }
      var i := found.value;
      SetTeamKeepsValid(matches, players, i, team);
      assert HasKey(matches, MatchIdOf, players[i].matchId);
      players := players[i := players[i].(team := team)];
      r := LookupMatch(matches, players, matchId);
    }

    /** `getMatchPlayers`: NotFound for an unknown match, otherwise exactly
        its entries, in ascending join time. */
    method GetMatchPlayers(matchId: string) returns (r: Result<seq<MatchPlayer>>)
      ensures r.Err? <==> !HasKey(matches, MatchIdOf, matchId)
      ensures r.Err? ==> r.error == NotFound
      ensures r.Ok? ==> multiset(r.value) == multiset(RosterOf(players, matchId))
      ensures r.Ok? ==> Sorted(r.value, Ascending(JoinedAtOf))
    {
      var view := LookupMatch(matches, players, matchId);
      if view.Err? {
        return Err(NotFound);
      }
      AscendingIsTotalPreorder(JoinedAtOf);
      SortSorted(RosterOf(players, matchId), Ascending(JoinedAtOf));
      r := Ok(Sort(RosterOf(players, matchId), Ascending(JoinedAtOf)));
    }

    /** `findByUserId`: every match the user is rostered in, once each,
        latest start first. */
    method FindByUserId(userId: string) returns (r: seq<Match>)
      requires Valid()
      ensures forall i :: 0 <= i < |r| ==> r[i] in matches && Rostered(players, r[i].matchId, userId)
      ensures forall m :: m in matches && Rostered(players, m.matchId, userId) ==> m in r
      ensures forall i, j :: 0 <= i < j < |r| ==> r[i].matchId != r[j].matchId
      ensures Sorted(r, Descending(StartDateOf))
    {
      UserMatchesCorrect(matches, players, userId);
      r := UserMatches(matches, players, userId);
    }
  }
}
