/**
 * The in-memory store of server/storage.ts (`MemStorage`): users, high
 * scores and player profiles, each kept under an auto-incremented id in
 * insertion order, with the queries the HTTP routes use. Records follow
 * the table definitions of shared/schema.ts.
 */
module Storage {
  import opened Wrappers
  import opened Seqs

  datatype User = User(id: int, username: string, password: string)
  datatype UserInput = UserInput(username: string, password: string)

  /** `userId` is a nullable reference; `None` stands for null or absent. */
  datatype HighScore = HighScore(
    id: int, userId: Option<int>, score: int, coins: int, level: int, completionTime: int, date: string)
  datatype HighScoreInput = HighScoreInput(
    userId: Option<int>, score: int, coins: int, level: int, completionTime: int, date: string)

  /**
   * Every profile field but `id` is optional in the insert schema, and the
   * store copies only the fields it is given: `None` is an absent field.
   */
  datatype PlayerProfile = PlayerProfile(
    id: int, userId: Option<int>, maxLevel: Option<int>, totalCoins: Option<int>, totalScore: Option<int>,
    livesUpgrade: Option<int>, speedUpgrade: Option<int>, jumpUpgrade: Option<int>)
  datatype ProfileInput = ProfileInput(
    userId: Option<int>, maxLevel: Option<int>, totalCoins: Option<int>, totalScore: Option<int>,
    livesUpgrade: Option<int>, speedUpgrade: Option<int>, jumpUpgrade: Option<int>)

  /** The three maps, as their values in insertion order, and the three id counters. */
  datatype StorageData = StorageData(
    users: seq<User>, highScores: seq<HighScore>, profiles: seq<PlayerProfile>,
    currentId: int, highScoreId: int, profileId: int)

  /** Keys strictly increase along the list and lie in `1 .. next - 1`; the counter starts at 1. */
  predicate Keyed<T>(s: seq<T>, key: T -> int, next: int)
  {
    (forall i, j :: 0 <= i < j < |s| ==> key(s[i]) < key(s[j])) &&
    (forall i :: 0 <= i < |s| ==> 1 <= key(s[i]) < next) &&
    1 <= next
  }

  const UserKey: User -> int := (u: User) => u.id
  const ScoreKey: HighScore -> int := (h: HighScore) => h.id
  const ProfileKey: PlayerProfile -> int := (p: PlayerProfile) => p.id

  /** Every id was issued by its counter, in order, so none repeats. */
  predicate Valid(d: StorageData)
  {
    Keyed(d.users, UserKey, d.currentId) &&
    Keyed(d.highScores, ScoreKey, d.highScoreId) &&
    Keyed(d.profiles, ProfileKey, d.profileId)
  }

  // ---------------------------------------------------------------- creating

  /** Appending under the counter's value, then advancing the counter, keeps keys increasing and in range. */
  lemma {:induction false} KeyedSnoc<T>(s: seq<T>, key: T -> int, next: int, x: T)
    requires Keyed(s, key, next) && key(x) == next
    ensures Keyed(s + [x], key, next + 1)
    ensures forall y :: y in s ==> key(y) < key(x)
  {
    var t := s + [x];
    forall i, j | 0 <= i < j < |t|
      ensures key(t[i]) < key(t[j])
    {
      if j < |s| {
        assert t[i] == s[i] && t[j] == s[j];
      } else {
        assert t[i] == s[i];
      }
    }
    forall y | y in s
      ensures key(y) < key(x)
    {
      var k :| 0 <= k < |s| && s[k] == y;
    }
  }

  function NewUser(d: StorageData, input: UserInput): User
  {
    User(d.currentId, input.username, input.password)
  }

  /** `createUser`: stored under the current counter, which then advances. */
  function UserCreated(d: StorageData, input: UserInput): (r: StorageData)
    ensures |r.users| == |d.users| + 1 && r.users[..|d.users|] == d.users
    ensures r.users[|d.users|].id == d.currentId && r.users[|d.users|].username == input.username
    ensures r.currentId == d.currentId + 1 && r.(users := d.users, currentId := d.currentId) == d
    ensures Valid(d) ==> Valid(r)
  {
    var r := d.(users := d.users + [NewUser(d, input)], currentId := d.currentId + 1);
    if Valid(d) then KeyedSnoc(d.users, UserKey, d.currentId, NewUser(d, input)); r else r
  }

  function NewHighScore(d: StorageData, input: HighScoreInput): HighScore
  {
    HighScore(d.highScoreId, input.userId, input.score, input.coins, input.level, input.completionTime, input.date)
  }

  /** `addHighScore`: stored under the current counter, which then advances. */
  function HighScoreAdded(d: StorageData, input: HighScoreInput): (r: StorageData)
    ensures |r.highScores| == |d.highScores| + 1 && r.highScores[..|d.highScores|] == d.highScores
    ensures r.highScores[|d.highScores|].id == d.highScoreId && r.highScores[|d.highScores|].score == input.score
    ensures r.highScoreId == d.highScoreId + 1 && r.(highScores := d.highScores, highScoreId := d.highScoreId) == d
    ensures Valid(d) ==> Valid(r)
  {
    var r := d.(highScores := d.highScores + [NewHighScore(d, input)], highScoreId := d.highScoreId + 1);
    if Valid(d) then KeyedSnoc(d.highScores, ScoreKey, d.highScoreId, NewHighScore(d, input)); r else r
  }

  function NewProfile(d: StorageData, input: ProfileInput): PlayerProfile
  {
    PlayerProfile(d.profileId, input.userId, input.maxLevel, input.totalCoins, input.totalScore,
                  input.livesUpgrade, input.speedUpgrade, input.jumpUpgrade)
  }

  /** `createPlayerProfile`: stored under the current counter, which then advances; no uniqueness check. */
  function ProfileCreated(d: StorageData, input: ProfileInput): (r: StorageData)
    ensures |r.profiles| == |d.profiles| + 1 && r.profiles[..|d.profiles|] == d.profiles
    ensures r.profiles[|d.profiles|].id == d.profileId && r.profiles[|d.profiles|].userId == input.userId
    ensures r.profileId == d.profileId + 1 && r.(profiles := d.profiles, profileId := d.profileId) == d
    ensures Valid(d) ==> Valid(r)
  {
    var r := d.(profiles := d.profiles + [NewProfile(d, input)], profileId := d.profileId + 1);
    if Valid(d) then KeyedSnoc(d.profiles, ProfileKey, d.profileId, NewProfile(d, input)); r else r
  }

  /**
   * Each creation keeps every id unique: the new record's id is larger than
   * every id already in its table, and the other tables are untouched.
   */
  lemma CreationKeepsIdsUnique(d: StorageData, u: UserInput, h: HighScoreInput, p: ProfileInput)
    requires Valid(d)
    ensures Valid(UserCreated(d, u)) && Valid(HighScoreAdded(d, h)) && Valid(ProfileCreated(d, p))
    ensures forall y :: y in d.users ==> y.id < NewUser(d, u).id
    ensures forall y :: y in d.highScores ==> y.id < NewHighScore(d, h).id
    ensures forall y :: y in d.profiles ==> y.id < NewProfile(d, p).id
  {
    KeyedSnoc(d.users, UserKey, d.currentId, NewUser(d, u));
    KeyedSnoc(d.highScores, ScoreKey, d.highScoreId, NewHighScore(d, h));
    KeyedSnoc(d.profiles, ProfileKey, d.profileId, NewProfile(d, p));
  }

  // ---------------------------------------------------------------- finding

  /** `Array.prototype.findIndex`: the position of the first element the test accepts. */
  function FirstIndex<T>(s: seq<T>, p: T -> bool): (r: Option<nat>)
    ensures r.Some? ==> r.value < |s| && p(s[r.value]) && forall j :: 0 <= j < r.value ==> !p(s[j])
    ensures r.None? ==> forall j :: 0 <= j < |s| ==> !p(s[j])
  {
    if s == [] then None
    else if p(s[0]) then Some(0)
    else match FirstIndex(s[1..], p)
      case None => None
      case Some(k) => Some(k + 1)
  }

  function HasId(id: int): User -> bool
  {
    (u: User) => u.id == id
  }

  /** `getUser(id)`: the user stored under `id`, if any. */
  function GetUser(d: StorageData, id: int): (r: Option<User>)
    ensures r.Some? <==> exists i :: 0 <= i < |d.users| && d.users[i].id == id
    ensures r.Some? ==> r.value in d.users && r.value.id == id
    ensures Valid(d) && r.Some? ==> forall u :: u in d.users && u.id == id ==> u == r.value
  {
    match FirstIndex(d.users, HasId(id))
    case None => None
    case Some(i) => Some(d.users[i])
  }

  function Named(username: string): User -> bool
  {
    (u: User) => u.username == username
  }

  /** `getUserByUsername`: the first user, in insertion order, with that name. */
  function GetUserByUsername(d: StorageData, username: string): (r: Option<User>)
    ensures r.None? <==> forall u :: u in d.users ==> u.username != username
    ensures r.Some? ==> exists i :: 0 <= i < |d.users| && d.users[i] == r.value && r.value.username == username &&
                                   forall j :: 0 <= j < i ==> d.users[j].username != username
  {
    match FirstIndex(d.users, Named(username))
    case None => None
    case Some(i) => Some(d.users[i])
  }

  function OwnedBy(userId: int): PlayerProfile -> bool
  {
    (p: PlayerProfile) => p.userId == Some(userId)
  }

  /** `getPlayerProfile`: the first profile, in insertion order, of that user. */
  function GetPlayerProfile(d: StorageData, userId: int): (r: Option<PlayerProfile>)
    ensures r.None? <==> forall p :: p in d.profiles ==> p.userId != Some(userId)
    ensures r.Some? ==> exists i :: 0 <= i < |d.profiles| && d.profiles[i] == r.value && r.value.userId == Some(userId) &&
                                   forall j :: 0 <= j < i ==> d.profiles[j].userId != Some(userId)
  {
    match FirstIndex(d.profiles, OwnedBy(userId))
    case None => None
    case Some(i) => Some(d.profiles[i])
  }

  // ---------------------------------------------------------------- sorting

  /** Non-increasing scores: the order of the comparator `b.score - a.score`. */
  predicate Descending(s: seq<HighScore>)
  {
    forall i, j :: 0 <= i < j < |s| ==> s[i].score >= s[j].score
  }

  /** Place `x` after every entry scoring at least as much, before the first scoring less. */
  function InsertByScore(t: seq<HighScore>, x: HighScore): seq<HighScore>
    decreases |t|
  {
    if t == [] then [x]
    else if t[0].score >= x.score then [t[0]] + InsertByScore(t[1..], x)
    else [x] + t
  }

  /** `Array.prototype.sort` with `(a, b) => b.score - a.score`, which is stable. */
  function SortByScore(s: seq<HighScore>): seq<HighScore>
    decreases |s|
  {
    if s == [] then [] else InsertByScore(SortByScore(s[..|s| - 1]), s[|s| - 1])
  }

  function Scoring(v: int): HighScore -> bool
  {
    (h: HighScore) => h.score == v
  }

  /** Insertion adds exactly `x`. */
  lemma {:induction false} InsertByScorePerm(t: seq<HighScore>, x: HighScore)
    decreases |t|
    ensures multiset(InsertByScore(t, x)) == multiset(t) + multiset{x}
  {
    if t != [] && t[0].score >= x.score {
      InsertByScorePerm(t[1..], x);
      assert t == [t[0]] + t[1..];
    }
  }

  /** Insertion into a descending list keeps it descending. */
  lemma {:induction false} InsertByScoreSorted(t: seq<HighScore>, x: HighScore)
    requires Descending(t)
    decreases |t|
    ensures Descending(InsertByScore(t, x))
  {
    if t != [] && t[0].score >= x.score {
      var rest := InsertByScore(t[1..], x);
      InsertByScoreSorted(t[1..], x);
      InsertByScorePerm(t[1..], x);
      var r := [t[0]] + rest;
      forall j | 0 < j < |r|
        ensures t[0].score >= r[j].score
      {
        assert r[j] == rest[j - 1];
        assert r[j] in multiset(t[1..]) + multiset{x};
      }
    }
  }

  /** Insertion puts `x` after every entry of its own score: the equal-score entries keep their order. */
  lemma {:induction false} InsertByScoreStable(t: seq<HighScore>, x: HighScore, v: int)
    requires Descending(t)
    decreases |t|
    ensures Filter(InsertByScore(t, x), Scoring(v)) == Filter(t, Scoring(v)) + Filter([x], Scoring(v))
  {
    if t == [] {
      assert [] + [x] == [x];
    } else if t[0].score >= x.score {
      var rest := InsertByScore(t[1..], x);
      InsertByScoreStable(t[1..], x, v);
      assert t == [t[0]] + t[1..];
      FilterAppend([t[0]], rest, Scoring(v));
      FilterAppend([t[0]], t[1..], Scoring(v));
      AppendAssoc(Filter([t[0]], Scoring(v)), Filter(t[1..], Scoring(v)), Filter([x], Scoring(v)));
    } else {
      FilterAppend([x], t, Scoring(v));
      if x.score == v {
        forall k | 0 <= k < |t|
          ensures !Scoring(v)(t[k])
        {
          assert k == 0 || t[0].score >= t[k].score;
        }
        FilterNone(t, Scoring(v));
      } else {
        assert Filter([x], Scoring(v)) == Filter([x][..0], Scoring(v));
      }
    }
  }

  /** The sort returns every entry exactly once, in non-increasing score order. */
  lemma {:induction false} SortByScoreSorted(s: seq<HighScore>)
    decreases |s|
    ensures Descending(SortByScore(s)) && multiset(SortByScore(s)) == multiset(s)
  {
    if s != [] {
      SortByScoreSorted(s[..|s| - 1]);
      InsertByScoreSorted(SortByScore(s[..|s| - 1]), s[|s| - 1]);
      InsertByScorePerm(SortByScore(s[..|s| - 1]), s[|s| - 1]);
      assert s == s[..|s| - 1] + [s[|s| - 1]];
    }
  }

  /** Entries with equal scores come out in the order they went in. */
  lemma {:induction false} SortByScoreStable(s: seq<HighScore>, v: int)
    decreases |s|
    ensures Filter(SortByScore(s), Scoring(v)) == Filter(s, Scoring(v))
  {
    if s != [] {
      var init, x := s[..|s| - 1], s[|s| - 1];
      SortByScoreSorted(init);
      InsertByScoreStable(SortByScore(init), x, v);
      SortByScoreStable(init, v);
      assert SortByScore(s) == InsertByScore(SortByScore(init), x);
      assert init + [x] == s;
      FilterAppend(init, [x], Scoring(v));
    }
  }

  /** `getHighScores`: every stored score, best first. */
  function GetHighScores(d: StorageData): (r: seq<HighScore>)
    ensures Descending(r) && multiset(r) == multiset(d.highScores)
  {
    SortByScoreSorted(d.highScores);
    SortByScore(d.highScores)
  }

  function ByUser(userId: int): HighScore -> bool
  {
    (h: HighScore) => h.userId == Some(userId)
  }

  /** `getHighScoresByUser`: the user's scores, best first. */
  function GetHighScoresByUser(d: StorageData, userId: int): (r: seq<HighScore>)
    ensures Descending(r) && multiset(r) == multiset(Filter(d.highScores, ByUser(userId)))
  {
    SortByScoreSorted(Filter(d.highScores, ByUser(userId)));
    SortByScore(Filter(d.highScores, ByUser(userId)))
  }

  /** The leaderboard holds exactly the stored scores, each once, best first; ties keep insertion order. */
  lemma HighScoresRanked(d: StorageData)
    ensures Descending(GetHighScores(d))
    ensures multiset(GetHighScores(d)) == multiset(d.highScores)
    ensures forall v :: Filter(GetHighScores(d), Scoring(v)) == Filter(d.highScores, Scoring(v))
  {
    SortByScoreSorted(d.highScores);
    forall v
      ensures Filter(GetHighScores(d), Scoring(v)) == Filter(d.highScores, Scoring(v))
    {
      SortByScoreStable(d.highScores, v);
    }
  }

  /** A user's list holds exactly that user's stored scores, each once, best first; ties keep insertion order. */
  lemma UserHighScoresRanked(d: StorageData, userId: int)
    ensures var r := GetHighScoresByUser(d, userId);
            Descending(r) &&
            multiset(r) == multiset(Filter(d.highScores, ByUser(userId))) &&
            forall h :: h in r <==> h in d.highScores && h.userId == Some(userId)
    ensures forall v :: Filter(GetHighScoresByUser(d, userId), Scoring(v)) == Filter(Filter(d.highScores, ByUser(userId)), Scoring(v))
  {
    var kept := Filter(d.highScores, ByUser(userId));
    SortByScoreSorted(kept);
    forall v
      ensures Filter(GetHighScoresByUser(d, userId), Scoring(v)) == Filter(kept, Scoring(v))
    {
      SortByScoreStable(kept, v);
    }
    FilterMembers(d.highScores, ByUser(userId));
    var r := GetHighScoresByUser(d, userId);
    forall h
      ensures h in r <==> h in kept
    {
      assert h in r <==> h in multiset(r);
      assert h in kept <==> h in multiset(kept);
    }
  }

  // ---------------------------------------------------------------- updating

  /** A spread property overrides only when the update carries it. */
  function Override(old_: Option<int>, new_: Option<int>): (r: Option<int>)
    ensures new_.Some? ==> r == new_
    ensures new_.None? ==> r == old_
  {
    if new_.Some? then new_ else old_
  }

  /** `{ ...existing, ...update, userId }`: the id is the existing one, the owner the requested one. */
  function Merged(p: PlayerProfile, update: ProfileInput, userId: int): PlayerProfile
  {
    PlayerProfile(p.id, Some(userId),
                  Override(p.maxLevel, update.maxLevel), Override(p.totalCoins, update.totalCoins),
                  Override(p.totalScore, update.totalScore), Override(p.livesUpgrade, update.livesUpgrade),
                  Override(p.speedUpgrade, update.speedUpgrade), Override(p.jumpUpgrade, update.jumpUpgrade))
  }

  datatype ProfileUpdate = ProfileUpdate(data: StorageData, result: Option<PlayerProfile>)

  /**
   * `updatePlayerProfile`: nothing changes and the answer is `undefined`
   * when the user has no profile; otherwise the user's first profile is
   * overwritten in place by the merge, and the merge is returned.
   */
  function ProfileUpdated(d: StorageData, userId: int, update: ProfileInput): (r: ProfileUpdate)
    ensures r.result.None? <==> GetPlayerProfile(d, userId).None?
    ensures r.result.None? ==> r.data == d
    ensures r.result.Some? ==> r.result == Some(Merged(GetPlayerProfile(d, userId).value, update, userId))
    ensures r.data.(profiles := d.profiles) == d && |r.data.profiles| == |d.profiles|
    ensures r.result.Some? ==> r.result.value.id == GetPlayerProfile(d, userId).value.id &&
                               r.result.value.userId == Some(userId)
    ensures forall i :: 0 <= i < |d.profiles| && r.data.profiles[i] != d.profiles[i] ==>
              d.profiles[i] == GetPlayerProfile(d, userId).value && r.data.profiles[i] == r.result.value
    ensures Valid(d) ==> Valid(r.data)
  {
    match FirstIndex(d.profiles, OwnedBy(userId))
    case None => ProfileUpdate(d, None)
    case Some(i) =>
      var updated := Merged(d.profiles[i], update, userId);
      ProfileUpdate(d.(profiles := d.profiles[i := updated]), Some(updated))
  }

  /** After an update the user's profile reads back as the returned merge. */
  lemma UpdateReadsBack(d: StorageData, userId: int, update: ProfileInput)
    ensures var r := ProfileUpdated(d, userId, update);
            GetPlayerProfile(r.data, userId) == r.result
  {
    var r := ProfileUpdated(d, userId, update);
    match FirstIndex(d.profiles, OwnedBy(userId))
    case None =>
    case Some(i) =>
      assert r.data.profiles[i] == r.result.value;
      assert OwnedBy(userId)(r.data.profiles[i]);
      assert forall j :: 0 <= j < i ==> r.data.profiles[j] == d.profiles[j];
      assert FirstIndex(r.data.profiles, OwnedBy(userId)) == Some(i);
  }

  /** A new user reads back under its id, and every older id still gives what it gave. */
  lemma CreatedUserReadsBack(d: StorageData, input: UserInput, id: int)
    requires Valid(d)
    ensures GetUser(UserCreated(d, input), NewUser(d, input).id) == Some(NewUser(d, input))
    ensures id != d.currentId ==> GetUser(UserCreated(d, input), id) == GetUser(d, id)
  {
    var r := UserCreated(d, input);
    assert r.users[|d.users|] == NewUser(d, input);
    if id != d.currentId {
      if GetUser(d, id).Some? {
        var u := GetUser(d, id).value;
        assert u in r.users;
      }
    }
  }

  /** Creating users never checks names: a second user with a taken name is shadowed by the first. */
  lemma DuplicateNameShadowed(d: StorageData, first: UserInput, second: UserInput)
    requires first.username == second.username
    requires forall u :: u in d.users ==> u.username != first.username
    ensures var r := UserCreated(UserCreated(d, first), second);
            |r.users| == |d.users| + 2 &&
            GetUserByUsername(r, first.username) == Some(NewUser(d, first))
  {
    var r1 := UserCreated(d, first);
    var r := UserCreated(r1, second);
    assert r.users == d.users + [NewUser(d, first), NewUser(r1, second)];
    var found := GetUserByUsername(r, first.username);
    assert r.users[|d.users|] == NewUser(d, first);
    assert found.Some?;
    var i :| 0 <= i < |r.users| && r.users[i] == found.value && found.value.username == first.username &&
             forall j :: 0 <= j < i ==> r.users[j].username != first.username;
    assert i == |d.users|;
  }

  // ---------------------------------------------------------------- demo data

  const DemoUsers: seq<UserInput> :=
    [UserInput("player1", "password123"), UserInput("player2", "password123"), UserInput("player3", "password123")]

  /** The three demo scores; `dates` are the three `new Date().toISOString()` readings. */
  function DemoScores(dates: seq<string>): seq<HighScoreInput>
    requires |dates| == 3
  {
    [HighScoreInput(Some(1), 1250, 8, 1, 120, dates[0]),
     HighScoreInput(Some(2), 980, 6, 1, 145, dates[1]),
     HighScoreInput(Some(3), 1500, 10, 2, 180, dates[2])]
  }

  const DemoProfiles: seq<ProfileInput> :=
    [ProfileInput(Some(1), Some(2), Some(15), Some(1250), Some(1), Some(0), Some(1)),
     ProfileInput(Some(2), Some(1), Some(6), Some(980), Some(0), Some(1), Some(0)),
     ProfileInput(Some(3), Some(3), Some(25), Some(2200), Some(2), Some(1), Some(1))]

  /** The empty maps and counters at 1. */
  const Empty: StorageData := StorageData([], [], [], 1, 1, 1)

  /** The constructor: empty maps, then `initializeDemoData`. */
  function Demo(dates: seq<string>): StorageData
    requires |dates| == 3
  {
    var scores := DemoScores(dates);
    var withUsers := UserCreated(UserCreated(UserCreated(Empty, DemoUsers[0]), DemoUsers[1]), DemoUsers[2]);
    var withScores := HighScoreAdded(HighScoreAdded(HighScoreAdded(withUsers, scores[0]), scores[1]), scores[2]);
    ProfileCreated(ProfileCreated(ProfileCreated(withScores, DemoProfiles[0]), DemoProfiles[1]), DemoProfiles[2])
  }

  /** After construction: the three demo records in each table, with ids 1 to 3, and every counter at 4. */
  lemma DemoShape(dates: seq<string>)
    requires |dates| == 3
    ensures var d := Demo(dates);
            d.users == [User(1, "player1", "password123"), User(2, "player2", "password123"),
                        User(3, "player3", "password123")] &&
            d.highScores == [HighScore(1, Some(1), 1250, 8, 1, 120, dates[0]),
                             HighScore(2, Some(2), 980, 6, 1, 145, dates[1]),
                             HighScore(3, Some(3), 1500, 10, 2, 180, dates[2])] &&
            d.profiles == [PlayerProfile(1, Some(1), Some(2), Some(15), Some(1250), Some(1), Some(0), Some(1)),
                           PlayerProfile(2, Some(2), Some(1), Some(6), Some(980), Some(0), Some(1), Some(0)),
                           PlayerProfile(3, Some(3), Some(3), Some(25), Some(2200), Some(2), Some(1), Some(1))] &&
            d.currentId == 4 && d.highScoreId == 4 && d.profileId == 4
  {
  }

  /** The demo data issues every id once. */
  lemma DemoValid(dates: seq<string>)
    requires |dates| == 3
    ensures Valid(Demo(dates))
  {
    assert Valid(Empty);
  }

  /** The demo leaderboard: player 3 (1500), player 1 (1250), player 2 (980). */
  lemma DemoRanking(dates: seq<string>)
    requires |dates| == 3
    ensures var h := Demo(dates).highScores;
            GetHighScores(Demo(dates)) == [h[2], h[0], h[1]] &&
            h[2].score == 1500 && h[0].score == 1250 && h[1].score == 980
  {
    DemoShape(dates);
    var h := Demo(dates).highScores;
    assert h[..2] == [h[0], h[1]] && [h[0], h[1]][..1] == [h[0]];
    assert [h[0]][..0] == [] && [h[0]][1..] == [];
    assert SortByScore([h[0]]) == [h[0]];
    assert InsertByScore([h[0]], h[1]) == [h[0]] + InsertByScore([], h[1]);
    assert SortByScore([h[0], h[1]]) == [h[0], h[1]];
    assert InsertByScore([h[0], h[1]], h[2]) == [h[2], h[0], h[1]];
  }

  // ---------------------------------------------------------------- the store

  class MemStorage {
    var users: seq<User>
    var highScores: seq<HighScore>
    var profiles: seq<PlayerProfile>
    var currentId: int
    var highScoreId: int
    var profileId: int

    function Data(): StorageData
      reads this
    {
      StorageData(users, highScores, profiles, currentId, highScoreId, profileId)
    }

    /** `dates` stands for the clock readings of the three demo scores. */
    constructor (dates: seq<string>)
      requires |dates| == 3
      ensures Data() == Demo(dates)
    {
      users, highScores, profiles := [], [], [];
      currentId, highScoreId, profileId := 1, 1, 1;
      new;
      InitializeDemoData(dates);
    }

    method InitializeDemoData(dates: seq<string>)
      requires |dates| == 3
      requires Data() == Empty
      modifies this
      ensures Data() == Demo(dates)
    {
      var _ := CreateUser(DemoUsers[0]);
      var _ := CreateUser(DemoUsers[1]);
      var _ := CreateUser(DemoUsers[2]);
      var scores := DemoScores(dates);
      var _ := AddHighScore(scores[0]);
      var _ := AddHighScore(scores[1]);
      var _ := AddHighScore(scores[2]);
      var _ := CreatePlayerProfile(DemoProfiles[0]);
      var _ := CreatePlayerProfile(DemoProfiles[1]);
      var _ := CreatePlayerProfile(DemoProfiles[2]);
    }

    method CreateUser(input: UserInput) returns (user: User)
      modifies this
      ensures user == NewUser(old(Data()), input)
      ensures Data() == UserCreated(old(Data()), input)
    {
      var id := currentId;
      currentId := currentId + 1;
      user := User(id, input.username, input.password);
      users := users + [user];
    }

    method AddHighScore(input: HighScoreInput) returns (highScore: HighScore)
      modifies this
      ensures highScore == NewHighScore(old(Data()), input)
      ensures Data() == HighScoreAdded(old(Data()), input)
    {
      var id := highScoreId;
      highScoreId := highScoreId + 1;
      highScore := HighScore(id, input.userId, input.score, input.coins, input.level, input.completionTime, input.date);
      highScores := highScores + [highScore];
    }

    method CreatePlayerProfile(input: ProfileInput) returns (profile: PlayerProfile)
      modifies this
      ensures profile == NewProfile(old(Data()), input)
      ensures Data() == ProfileCreated(old(Data()), input)
    {
      var id := profileId;
      profileId := profileId + 1;
      profile := PlayerProfile(id, input.userId, input.maxLevel, input.totalCoins, input.totalScore,
                               input.livesUpgrade, input.speedUpgrade, input.jumpUpgrade);
      profiles := profiles + [profile];
    }

    method UpdatePlayerProfile(userId: int, update: ProfileInput) returns (result: Option<PlayerProfile>)
      modifies this
      ensures ProfileUpdated(old(Data()), userId, update) == ProfileUpdate(Data(), result)
    {
      var index := FirstIndex(profiles, OwnedBy(userId));
      if index.None? {
        return None;
      }
      var updated := Merged(profiles[index.value], update, userId);
      profiles := profiles[index.value := updated];
      return Some(updated);
    }
  }
}
