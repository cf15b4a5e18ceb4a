/** The lobby (`App.tsx`): the open matches in start order, narrowed to a
    category when one is selected, each with a join button that a full
    roster disables, and the player's rating bar. */
module Lobby {
  import opened Common
  import opened Tables
  import opened Sorting
  import C = ClientTypes

  function IsPending(): C.Match -> bool {
    (m: C.Match) => m.status == C.Pending
  }

  /** `matches.filter((match) => match.status === "PENDING")`. */
  function PendingMatches(ms: seq<C.Match>): (r: seq<C.Match>)
    ensures multiset(r) <= multiset(ms)
    ensures forall m :: m in r <==> m in ms && m.status == C.Pending
  {
    FilterMembers(ms, IsPending());
    Filter(ms, IsPending())
  }

  function StartDateOf(m: C.Match): int {
    m.startDate
  }

  /** `[...pending].sort((a, b) => a.startDate - b.startDate)`: a sorted copy;
      the list it was made from is a value and stays as it was. */
  function SortedMatches(ms: seq<C.Match>): (r: seq<C.Match>)
    ensures multiset(r) == multiset(PendingMatches(ms))
    ensures Sorted(r, Ascending(StartDateOf))
  {
    AscendingIsTotalPreorder(StartDateOf);
    SortSorted(PendingMatches(ms), Ascending(StartDateOf));
    Sort(PendingMatches(ms), Ascending(StartDateOf))
  }

  function HasCategory(c: int): C.Match -> bool {
    (m: C.Match) => m.category == c
  }

  /** `filteredMatches`: every sorted match when no category is selected,
      otherwise those of the selected category. */
  function FilteredMatches(ms: seq<C.Match>, selected: Option<int>): (r: seq<C.Match>)
    ensures selected.None? ==> r == SortedMatches(ms)
    ensures Sorted(r, Ascending(StartDateOf))
    ensures multiset(r) <= multiset(PendingMatches(ms))
    ensures forall m :: m in r <==>
      m in ms && m.status == C.Pending && (selected.None? || m.category == selected.value)
  {
    var sorted := SortedMatches(ms);
    SameMembers(sorted, PendingMatches(ms));
    match selected
    case None => sorted
    case Some(c) =>
      var r := Filter(sorted, HasCategory(c));
      FilterSorted(sorted, HasCategory(c), Ascending(StartDateOf));
      FilterMembers(sorted, HasCategory(c));
      r
  }

  const MaxPlayers := 4

  datatype JoinButton = JoinButton(disabled: bool, caption: string)

  /** `isFull` and the join button it drives. */
  function JoinButtonOf(m: C.Match): (b: JoinButton)
    ensures b.disabled <==> |m.matchPlayers| >= MaxPlayers
    ensures b.caption == if b.disabled then "Partida Cheia" else "Entrar"
  {
    var isFull := |m.matchPlayers| >= MaxPlayers;
    JoinButton(isFull, if isFull then "Partida Cheia" else "Entrar")
  }

  /** A full match stays full when the roster grows. */
  lemma FullStaysFull(m: C.Match, newcomer: string)
    requires JoinButtonOf(m).disabled
    ensures JoinButtonOf(m.(matchPlayers := m.matchPlayers + [newcomer])).disabled
  {
  }

  const MaxElo := 2000
  const DefaultElo := 800

  /** `user.category ? user.category * 100 : 800`. */
  function Elo(u: C.User): (e: int)
    ensures C.NumTruthy(u.category) ==> e == u.category.value.n * 100
    ensures !C.NumTruthy(u.category) ==> e == DefaultElo
  {
    if C.NumTruthy(u.category) then u.category.value.n * 100 else DefaultElo
  }

  /** Any rating the registration form allows (1 to 10) lies on the bar. */
  lemma EloOnBar(u: C.User)
    requires u.category.Some? && u.category.value.Finite? && 1 <= u.category.value.n <= 10
    ensures 100 <= Elo(u) <= MaxElo
  {
  }
}
