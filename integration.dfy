/**
 * The client's profile controller talking to the server's Cloud Code
 * functions over one player's Cloud Save record. Each client call gets,
 * as its reply, exactly what the server function returns.
 */
module Integration {
  import opened Outcomes
  import opened Decimal
  import opened CloudService
  import opened Profile

  /** A server reply as the client sees it: a string the client may find null. */
  function AsNullable(r: Reply<string>): (n: Reply<Option<string>>)
    ensures n.Failed? <==> r.Failed?
    ensures r.Value? ==> n.value == Some(r.value)
  {
    match r
    case Value(s) => Value(Some(s))
    case Failed => Failed
  }

  /**
   * The client's save of its coin counter against this server: the echo
   * check passes exactly when the Cloud Save write succeeds, and the
   * record then holds the counter.
   */
  method SaveCoinAgainstServer(m: PlayerDataManager, store: CloudSave, api: Outcome) returns (saved: bool)
    modifies m`calls, store
    ensures saved <==> api == Returned
    ensures m.coinCounter == old(m.coinCounter)
    ensures m.calls == old(m.calls) + [SaveCoinCall(m.coinCounter)]
    ensures store.items == if api == Returned then old(store.items)[CoinKey := Int32ToString(m.coinCounter)]
                           else old(store.items)
  {
    var reply := CloudService.SaveCoin(store, m.coinCounter, api);
    saved := m.SaveCoin(AsNullable(reply));
  }

  /** The client's save of a player name against this server. */
  method SavePlayerNameAgainstServer(m: PlayerDataManager, store: CloudSave, newName: string, api: Outcome)
    returns (message: Option<string>)
    modifies m, store
    ensures message == IsPlayerNameValid(newName)
    ensures m.coinCounter == old(m.coinCounter)
    ensures !ValidName(newName) ==> m.calls == old(m.calls)
    ensures ValidName(newName) ==> m.calls == old(m.calls) + [SavePlayerNameCall(newName)]
    ensures !ValidName(newName) || api == Threw ==>
              store.items == old(store.items) && m.playerName == old(m.playerName)
    ensures ValidName(newName) && api == Returned ==>
              store.items == old(store.items)[PlayerNameKey := newName] && m.playerName == Some(newName)
  {
    message := IsPlayerNameValid(newName);
    var reply: Reply<string> := Failed;
    if message == None {
      reply := CloudService.SavePlayerName(store, newName, api);
    }
    message := m.SavePlayerName(newName, AsNullable(reply));
  }

  /** The client's sign-in load against this server. */
  method InitializeFromServer(m: PlayerDataManager, store: CloudSave, nameApi: Outcome, coinApi: Outcome)
    modifies m
    ensures m.calls == old(m.calls) + (if nameApi == Returned then [GetPlayerNameCall, GetCoinCall] else [GetPlayerNameCall])
    ensures nameApi == Returned ==> m.playerName == Some(if PlayerNameKey in store.items then store.items[PlayerNameKey] else "")
    ensures nameApi == Threw ==> m.playerName == old(m.playerName) && m.coinCounter == old(m.coinCounter)
    ensures nameApi == Returned && GetCoin(store.items, coinApi).Value? ==>
              m.coinCounter == GetCoin(store.items, coinApi).value
    ensures GetCoin(store.items, coinApi).Failed? ==> m.coinCounter == old(m.coinCounter)
  {
    m.InitializePlayer(AsNullable(GetPlayerName(store.items, nameApi)), GetCoin(store.items, coinApi));
  }

  /**
   * A new player: the record has no coins, loading gives 0, one coin is
   * added and saved; after a restart a fresh controller loads 1.
   */
  method CoinSurvivesRestart() returns (loaded: Int32, saved: bool, reloaded: Int32)
    ensures loaded == 0 && saved && reloaded == 1
  {
    var store := new CloudSave(map[]);
    var m := new PlayerDataManager();
    InitializeFromServer(m, store, Returned, Returned);
    loaded := m.coinCounter;
    m.AddCoin();
    saved := SaveCoinAgainstServer(m, store, Returned);
    var restarted := new PlayerDataManager();
    CoinRoundTrip(map[], 1);
    InitializeFromServer(restarted, store, Returned, Returned);
    reloaded := restarted.coinCounter;
  }

  /** A valid name saved, then loaded by a fresh controller, comes back as it was saved. */
  method NameSurvivesRestart() returns (name: Option<string>)
    ensures name == Some("Player1")
  {
    var store := new CloudSave(map[CoinKey := "7"]);
    var m := new PlayerDataManager();
    var message := SavePlayerNameAgainstServer(m, store, "Player1", Returned);
    var restarted := new PlayerDataManager();
    InitializeFromServer(restarted, store, Returned, Returned);
    name := restarted.playerName;
  }

  /** Any counter the client saves is the counter a later load reads back. */
  lemma SavedCoinLoadsBack(items: map<string, string>, name: string, n: Int32)
    ensures GetCoin(items[CoinKey := Int32ToString(n)][PlayerNameKey := name], Returned) == Value(n)
  {
    SaveNameKeepsCoin(items[CoinKey := Int32ToString(n)], name, Returned);
    CoinRoundTrip(items, n);
  }
}
