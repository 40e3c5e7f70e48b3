/**
 * The progress counters of client/src/lib/game/GameState.ts and their
 * save/load through the browser's key-value store. The store is modelled as
 * a map from keys to records; the JSON text in between is not modelled.
 */
module GameStateModel {

  /** The `{score, lives, coins, level, gameTime}` object that is saved. */
  datatype SaveRecord = SaveRecord(score: int, lives: int, coins: int, level: int, gameTime: real)

  const SaveKey: string := "pixelJumperSave"

  /** The field initialisers. */
  const Defaults: SaveRecord := SaveRecord(0, 3, 0, 1, 0.0)

  datatype LoadResult = LoadResult(state: SaveRecord, found: bool)

  /** `saveGameState()` on the store's contents. */
  function Saved(s: SaveRecord, items: map<string, SaveRecord>): (r: map<string, SaveRecord>)
    ensures SaveKey in r && r[SaveKey] == s
    ensures forall k :: k in items && k != SaveKey ==> k in r && r[k] == items[k]
    ensures r.Keys == items.Keys + {SaveKey}
  {
    items[SaveKey := s]
  }

  /** `loadGameState()`: the saved record if there is one, otherwise nothing changes. */
  function Loaded(current: SaveRecord, items: map<string, SaveRecord>): (r: LoadResult)
    ensures r.found <==> SaveKey in items
    ensures r.found ==> r.state == items[SaveKey]
    ensures !r.found ==> r.state == current
  {
    if SaveKey in items then LoadResult(items[SaveKey], true) else LoadResult(current, false)
  }

  /** Saving then loading restores all five fields, whatever the counters were in between. */
  lemma SaveLoadRoundTrip(s: SaveRecord, other: SaveRecord, items: map<string, SaveRecord>)
    ensures Loaded(other, Saved(s, items)) == LoadResult(s, true)
  {
  }

  /** `resetGameState()` before it saves: the level survives. */
  function Restarted(s: SaveRecord): (r: SaveRecord)
    ensures r.level == s.level
    ensures r == Defaults.(level := s.level)
  {
    s.(score := 0, lives := 3, coins := 0, gameTime := 0.0)
  }

  /** The browser's local storage. */
  class Store {
    var items: map<string, SaveRecord>

    constructor (items0: map<string, SaveRecord>)
      ensures items == items0
    {
      items := items0;
    }
  }

  class GameState {
    var score: int
    var lives: int
    var coins: int
    var level: int
    var gameTime: real
    const store: Store

    function Record(): SaveRecord
      reads this
    {
      SaveRecord(score, lives, coins, level, gameTime)
    }

    /** The defaults, then whatever `loadGameState` finds. */
    constructor (store0: Store)
      ensures store == store0
      ensures Record() == Loaded(Defaults, store0.items).state
    {
      store := store0;
      score, lives, coins, level, gameTime := 0, 3, 0, 1, 0.0;
      new;
      var _ := LoadGameState();
    }

    method UpdateScore(points: int)
      modifies this
      ensures Record() == old(Record()).(score := old(score) + points)
    {
      score := score + points;
    }

    function GetScore(): int
      reads this
    {
      score
    }

    /** No bound: lives may go negative. */
    method UpdateLives(change: int)
      modifies this
      ensures Record() == old(Record()).(lives := old(lives) + change)
    {
      lives := lives + change;
    }

    function GetLives(): int
      reads this
    {
      lives
    }

    method UpdateCoins(count: int)
      modifies this
      ensures Record() == old(Record()).(coins := old(coins) + count)
    {
      coins := coins + count;
    }

    function GetCoins(): int
      reads this
    {
      coins
    }

    method SetLevel(n: int)
      modifies this
      ensures Record() == old(Record()).(level := n)
      ensures GetLevel() == n
    {
      level := n;
    }

    function GetLevel(): int
      reads this
    {
      level
    }

    method UpdateGameTime(deltaTime: real)
      modifies this
      ensures Record() == old(Record()).(gameTime := old(gameTime) + deltaTime)
    {
      gameTime := gameTime + deltaTime;
    }

    function GetGameTime(): real
      reads this
    {
      gameTime
    }

    method ResetGameState()
      modifies this, store
      ensures Record() == Restarted(old(Record()))
      ensures store.items == Saved(Record(), old(store.items))
    {
      score := 0;
      lives := 3;
      coins := 0;
      gameTime := 0.0;
      SaveGameState();
    }

    method SaveGameState()
      modifies store
      ensures store.items == Saved(Record(), old(store.items))
    {
      store.items := store.items[SaveKey := SaveRecord(score, lives, coins, level, gameTime)];
    }

    method LoadGameState() returns (found: bool)
      modifies this
      ensures Loaded(old(Record()), store.items) == LoadResult(Record(), found)
    {
      if SaveKey in store.items {
        var state := store.items[SaveKey];
        score := state.score;
        lives := state.lives;
        coins := state.coins;
        level := state.level;
        gameTime := state.gameTime;
        return true;
      }
      return false;
    }
  }
}
