/** The leaderboard section: the fetched user list is cut to its first ten
    users, each is given a random score in [1000, 9999], and the list is
    sorted by score, highest first, keeping fetched order among equal scores.
    The network answer and the random draws are inputs. */
module Leaderboard {
  import Text

  datatype User = User(id: int, name: string, username: string, email: string)

  /** A user with the score the page attached to it. */
  datatype LeaderboardEntry =
    LeaderboardEntry(id: int, name: string, username: string, email: string, points: int)

  /** What the try block produced: the parsed user array, or an exception
      thrown by the request, the JSON parse or the list pipeline. */
  datatype FetchOutcome = Success(users: seq<User>) | Failure

  const MaxEntries: nat := 10
  const ScoreBase: int := 1000
  /** `Math.floor(Math.random() * 9000)` lies in [0, DrawRange). */
  const DrawRange: int := 9000

  function Min(a: nat, b: nat): nat { if a <= b then a else b }

  predicate ValidDraws(draws: seq<int>) {
    forall i :: 0 <= i < |draws| ==> 0 <= draws[i] < DrawRange
  }

  /** How many users survive the `slice(0, 10)`. */
  function Kept(users: seq<User>): nat {
    Min(MaxEntries, |users|)
  }

  /** `{...user, points: draw + 1000}`. */
  function Decorate(user: User, draw: int): (e: LeaderboardEntry)
    requires 0 <= draw < DrawRange
    ensures e.id == user.id && e.name == user.name
    ensures e.username == user.username && e.email == user.email
    ensures e.points == draw + ScoreBase
    ensures 1000 <= e.points <= 9999
  {
    LeaderboardEntry(user.id, user.name, user.username, user.email, draw + ScoreBase)
  }

  /** `users.slice(0, 10).map(...)`: draws[i] is the random draw for the i-th user. */
  function DecorateFirst(users: seq<User>, draws: seq<int>): (es: seq<LeaderboardEntry>)
    requires |draws| == Kept(users) && ValidDraws(draws)
    ensures |es| == Kept(users)
    ensures forall i :: 0 <= i < |es| ==> es[i] == Decorate(users[i], draws[i])
  {
    seq(Kept(users), i requires 0 <= i < Kept(users) => Decorate(users[i], draws[i]))
  }

  /** Non-increasing by points. */
  predicate SortedByPoints(s: seq<LeaderboardEntry>) {
    forall i, j :: 0 <= i < j < |s| ==> s[i].points >= s[j].points
  }

  /** The entries with exactly `p` points, in their order in s. */
  function WithPoints(s: seq<LeaderboardEntry>, p: int): (r: seq<LeaderboardEntry>)
    ensures |r| <= |s|
  {
    if s == [] then []
    else (if s[0].points == p then [s[0]] else []) + WithPoints(s[1..], p)
  }

  /** Places x in front of the first entry that does not score more than x. */
  function Insert(x: LeaderboardEntry, t: seq<LeaderboardEntry>): (r: seq<LeaderboardEntry>)
    requires SortedByPoints(t)
    ensures SortedByPoints(r)
    ensures multiset(r) == multiset(t) + multiset{x}
    ensures |r| == |t| + 1
    ensures r[0] == x || (t != [] && r[0] == t[0])
  {
    if t == [] then [x]
    else if x.points >= t[0].points then
      SortedCons(x, t);
      [x] + t
    else
      var rest := Insert(x, t[1..]);
      assert t == [t[0]] + t[1..];
      SortedCons(t[0], rest);
      [t[0]] + rest
  }

  lemma SortedCons(h: LeaderboardEntry, s: seq<LeaderboardEntry>)
    requires SortedByPoints(s)
    requires s != [] ==> h.points >= s[0].points
    ensures SortedByPoints([h] + s)
  {
    var r := [h] + s;
    forall i, j | 0 <= i < j < |r| ensures r[i].points >= r[j].points {
      if i == 0 && j > 1 {
        assert r[1] == s[0] && r[j] == s[j - 1];
      }
    }
  }

  /** `.sort((a, b) => b.points - a.points)`: a stable sort, highest score first. */
  function SortByPoints(s: seq<LeaderboardEntry>): (r: seq<LeaderboardEntry>)
    ensures SortedByPoints(r)
    ensures multiset(r) == multiset(s)
    ensures |r| == |s|
  {
    if s == [] then []
    else
      assert s == [s[0]] + s[1..];
      Insert(s[0], SortByPoints(s[1..]))
  }

  /** The list the component stores after a successful fetch. */
  function Entries(users: seq<User>, draws: seq<int>): (r: seq<LeaderboardEntry>)
    requires |draws| == Kept(users) && ValidDraws(draws)
    ensures |r| == Kept(users)
    ensures SortedByPoints(r)
    ensures multiset(r) == multiset(DecorateFirst(users, draws))
  {
    SortByPoints(DecorateFirst(users, draws))
  }

  lemma WithPointsCons(e: LeaderboardEntry, s: seq<LeaderboardEntry>, p: int)
    ensures WithPoints([e] + s, p) == (if e.points == p then [e] else []) + WithPoints(s, p)
  {
    assert ([e] + s)[1..] == s;
  }

  lemma {:induction false} WithPointsInsert(x: LeaderboardEntry, t: seq<LeaderboardEntry>, p: int)
    requires SortedByPoints(t)
    ensures WithPoints(Insert(x, t), p) == (if x.points == p then [x] else []) + WithPoints(t, p)
    decreases |t|
  {
    if t == [] {
      WithPointsCons(x, [], p);
    } else if x.points >= t[0].points {
      WithPointsCons(x, t, p);
    } else {
      var rest := Insert(x, t[1..]);
      assert Insert(x, t) == [t[0]] + rest;
      WithPointsCons(t[0], rest, p);
      WithPointsInsert(x, t[1..], p);
      assert t == [t[0]] + t[1..];
      WithPointsCons(t[0], t[1..], p);
      var hx: seq<LeaderboardEntry> := if x.points == p then [x] else [];
      var h0: seq<LeaderboardEntry> := if t[0].points == p then [t[0]] else [];
      assert hx == [] || h0 == [];
      assert h0 + (hx + WithPoints(t[1..], p)) == hx + (h0 + WithPoints(t[1..], p));
    }
  }

  /** Stability: for every score, the entries with that score keep their
      relative input order. */
  lemma {:induction false} SortIsStable(s: seq<LeaderboardEntry>, p: int)
    ensures WithPoints(SortByPoints(s), p) == WithPoints(s, p)
    decreases |s|
  {
    if s != [] {
      SortIsStable(s[1..], p);
      WithPointsInsert(s[0], SortByPoints(s[1..]), p);
    }
  }

  /** What a successful load stores: exactly min(10, |users|) entries, a
      permutation of the decorated first ten users, ordered by score with
      ties in fetched order, every score in [1000, 9999]. */
  lemma EntriesSpec(users: seq<User>, draws: seq<int>)
    requires |draws| == Kept(users) && ValidDraws(draws)
    ensures var r := Entries(users, draws);
      && |r| == Kept(users)
      && multiset(r) == multiset(DecorateFirst(users, draws))
      && SortedByPoints(r)
      && (forall p :: WithPoints(r, p) == WithPoints(DecorateFirst(users, draws), p))
      && (forall e :: e in r ==> 1000 <= e.points <= 9999)
      && (forall e :: e in r ==> exists i :: 0 <= i < Kept(users) && e == Decorate(users[i], draws[i]))
  {
    var d := DecorateFirst(users, draws);
    var r := Entries(users, draws);
    forall p ensures WithPoints(r, p) == WithPoints(d, p) {
      SortIsStable(d, p);
    }
    forall e | e in r ensures exists i :: 0 <= i < Kept(users) && e == Decorate(users[i], draws[i]) {
      assert e in multiset(d);
      var i :| 0 <= i < |d| && d[i] == e;
    }
  }

  /** The component's two state fields and the effect that loads them. */
  class LeaderboardState {
    var leaderboard: seq<LeaderboardEntry>
    var loading: bool

    /** `useState([])` and `useState(true)`. */
    constructor ()
      ensures leaderboard == [] && loading
    {
      leaderboard := [];
      loading := true;
    }

    /** `fetchLeaderboard`: the list is replaced only when the whole try block
        succeeds; `loading` is cleared by the finally block on both paths. */
    method FetchLeaderboard(outcome: FetchOutcome, draws: seq<int>)
      requires outcome.Success? ==> |draws| == Kept(outcome.users) && ValidDraws(draws)
      modifies this
      ensures !loading
      ensures outcome.Success? ==> leaderboard == Entries(outcome.users, draws)
      ensures outcome.Failure? ==> leaderboard == old(leaderboard)
    {
      match outcome {
        case Success(users) =>
          var entries := SortByPoints(DecorateFirst(users, draws));
          leaderboard := entries;
        case Failure =>
      }
      loading := false;
    }
  }

  /** Mounting the component in a production build: fresh state, then the
      one load the effect runs. A failed load leaves the list empty. */
  method Mount(outcome: FetchOutcome, draws: seq<int>) returns (board: seq<LeaderboardEntry>, loading: bool)
    requires outcome.Success? ==> |draws| == Kept(outcome.users) && ValidDraws(draws)
    ensures !loading
    ensures outcome.Failure? ==> board == []
    ensures outcome.Success? ==> board == Entries(outcome.users, draws) && |board| == Kept(outcome.users)
  {
    var state := new LeaderboardState();
    state.FetchLeaderboard(outcome, draws);
    board, loading := state.leaderboard, state.loading;
  }

  /** Mounting under `React.StrictMode` in a development build: the effect
      runs twice, so two loads run at once, each with its own draws, and they
      finish in some order. The load that finishes last decides the list
      when it succeeds; a failure finishing last keeps what the other load
      stored. */
  method MountDevelopment(first: FetchOutcome, firstDraws: seq<int>, last: FetchOutcome, lastDraws: seq<int>)
    returns (board: seq<LeaderboardEntry>, loading: bool)
    requires first.Success? ==> |firstDraws| == Kept(first.users) && ValidDraws(firstDraws)
    requires last.Success? ==> |lastDraws| == Kept(last.users) && ValidDraws(lastDraws)
    ensures !loading
    ensures last.Success? ==> board == Entries(last.users, lastDraws)
    ensures last.Failure? && first.Success? ==> board == Entries(first.users, firstDraws)
    ensures last.Failure? && first.Failure? ==> board == []
  {
    var state := new LeaderboardState();
    state.FetchLeaderboard(first, firstDraws);
    state.FetchLeaderboard(last, lastDraws);
    board, loading := state.leaderboard, state.loading;
  }

  /** The gradient of a row, by display position. */
  datatype RankColor = Gold | Silver | Bronze | Plain

  /** `getRankColor`, as the colour it selects. */
  function GetRankColor(index: nat): (c: RankColor)
    ensures c == Plain <==> index >= 3
  {
    if index == 0 then Gold
    else if index == 1 then Silver
    else if index == 2 then Bronze
    else Plain
  }

  /** The Tailwind classes `getRankColor` returns for each colour. */
  function RankColorClasses(c: RankColor): (classes: string)
    ensures classes == "from-gray-700 to-gray-800" <==> c == Plain
  {
    match c
    case Gold => "from-yellow-500 to-yellow-600"
    case Silver => "from-gray-400 to-gray-500"
    case Bronze => "from-orange-600 to-orange-700"
    case Plain => "from-gray-700 to-gray-800"
  }

  /** Gold, silver and bronze gradients for the first three rows, each its
      own, and the grey default for every row below them. */
  lemma RankColors(index: nat)
    ensures RankColorClasses(GetRankColor(0)) == "from-yellow-500 to-yellow-600"
    ensures RankColorClasses(GetRankColor(1)) == "from-gray-400 to-gray-500"
    ensures RankColorClasses(GetRankColor(2)) == "from-orange-600 to-orange-700"
    ensures index >= 3 ==> RankColorClasses(GetRankColor(index)) == "from-gray-700 to-gray-800"
    ensures index < 3 ==> forall j: nat :: j != index ==> GetRankColor(j) != GetRankColor(index)
  {
  }

  /** Rows at positions 0-2 get the emphasised shadow and scale: exactly the
      rows without the default colour. */
  function Emphasised(index: nat): (emphasised: bool)
    ensures emphasised <==> GetRankColor(index) != Plain
  {
    index < 3
  }

  /** The four badge expressions of a row, in order; a false `&&` renders as
      nothing, modelled as the empty string. */
  function BadgeParts(index: nat): (parts: seq<string>)
    ensures |parts| == 4
    ensures forall k :: 0 <= k < 4 ==> (parts[k] != "" <==> k == if index < 3 then index else 3)
  {
    [ if index == 0 then "\U{1F947}" else "",
      if index == 1 then "\U{1F948}" else "",
      if index == 2 then "\U{1F949}" else "",
      if index > 2 then "#" + Text.NatToString(index + 1) else "" ]
  }

  predicate IsMedal(s: string) {
    s == "\U{1F947}" || s == "\U{1F948}" || s == "\U{1F949}"
  }

  /** What the badge cell shows: the concatenation of its parts. */
  function Badge(index: nat): (b: string)
    ensures index < 3 ==> IsMedal(b)
    ensures index == 0 ==> b == "\U{1F947}"
    ensures index == 1 ==> b == "\U{1F948}"
    ensures index == 2 ==> b == "\U{1F949}"
    ensures index >= 3 ==> b == "#" + Text.NatToString(index + 1)
  {
    var parts := BadgeParts(index);
    parts[0] + parts[1] + parts[2] + parts[3]
  }

  /** Exactly one badge expression renders, so each row shows one badge. */
  lemma ExactlyOneBadge(index: nat)
    ensures |set k | 0 <= k < 4 && BadgeParts(index)[k] != ""| == 1
    ensures Badge(index) == BadgeParts(index)[if index < 3 then index else 3]
  {
    var parts := BadgeParts(index);
    var k0: nat := if index < 3 then index else 3;
    assert parts[k0] != "";
    var lit := set k | 0 <= k < 4 && parts[k] != "";
    assert lit == {k0};
  }

  /** Medal, colour and emphasis agree: all three single out positions 0-2,
      and a lower row is labelled with its 1-based position. */
  lemma TopThreeRules(index: nat)
    ensures Emphasised(index) <==> IsMedal(Badge(index))
    ensures Emphasised(index) <==> GetRankColor(index) != Plain
    ensures !Emphasised(index) ==> Badge(index) == "#" + Text.NatToString(index + 1)
  {
    if index >= 3 {
      var b := Badge(index);
      assert b == "#" + Text.NatToString(index + 1);
      assert b[0] == '#';
      assert "\U{1F947}"[0] != '#' && "\U{1F948}"[0] != '#' && "\U{1F949}"[0] != '#';
    }
  }

  /** The medals go to the three highest scores of the stored list: every
      emphasised row scores at least as much as every other row. */
  lemma MedalsToHighestScores(users: seq<User>, draws: seq<int>, i: nat, j: nat)
    requires |draws| == Kept(users) && ValidDraws(draws)
    requires i < |Entries(users, draws)| && j < |Entries(users, draws)|
    requires Emphasised(i) && !Emphasised(j)
    ensures IsMedal(Badge(i)) && !IsMedal(Badge(j))
    ensures Entries(users, draws)[i].points >= Entries(users, draws)[j].points
  {
    TopThreeRules(i);
    TopThreeRules(j);
  }
}
