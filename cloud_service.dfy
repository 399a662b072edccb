/**
 * The server-side Cloud Code module: two keys of a player's Cloud Save
 * record, read and written through the Cloud Save API. The execution
 * context (access token, project id, player id) selects one player's
 * record; the model passes that record, a `CloudSave` object, directly.
 */
module CloudService {
  import opened Outcomes
  import opened Decimal

  const PlayerNameKey: string := "PLAYER_NAME"
  const CoinKey: string := "COIN"

  /** One player's Cloud Save record: key to stored text. */
  class CloudSave {
    var items: map<string, string>

    constructor (items: map<string, string>)
      ensures this.items == items
    {
      this.items := items;
    }
  }

  /**
   * Writes `value` under `key`. The API call either stores it or throws;
   * a throw is rethrown as a plain exception (`ok` is false) and the record
   * is left as it was.
   */
  method SavePlayerData(store: CloudSave, key: string, value: string, api: Outcome) returns (ok: bool)
    modifies store
    ensures ok <==> api == Returned
    ensures store.items == if ok then old(store.items)[key := value] else old(store.items)
  {
    if api == Returned {
      store.items := store.items[key := value];
      ok := true;
    } else {
      ok := false;
    }
  }

  /** Reads `key`: the stored text, `""` when the key is absent, or the API's exception. */
  function GetPlayerData(items: map<string, string>, key: string, api: Outcome): (r: Reply<string>)
    ensures r.Failed? <==> api == Threw
    ensures r.Value? && key in items ==> r.value == items[key]
    ensures r.Value? && key !in items ==> r.value == ""
  {
    if api == Threw then Failed
    else if key in items then Value(items[key])
    else Value("")
  }

  /** Stores the new name and returns it unchanged. */
  method SavePlayerName(store: CloudSave, newName: string, api: Outcome) returns (r: Reply<string>)
    modifies store
    ensures r == if api == Returned then Value(newName) else Failed
    ensures store.items == if api == Returned then old(store.items)[PlayerNameKey := newName]
                           else old(store.items)
  {
    var ok := SavePlayerData(store, PlayerNameKey, newName, api);
    r := if ok then Value(newName) else Failed;
  }

  function GetPlayerName(items: map<string, string>, api: Outcome): (r: Reply<string>)
    ensures r.Failed? <==> api == Threw
    ensures r.Value? ==> r.value == if PlayerNameKey in items then items[PlayerNameKey] else ""
  {
    GetPlayerData(items, PlayerNameKey, api)
  }

  /** Stores the decimal text of the coin count and returns that text. */
  method SaveCoin(store: CloudSave, coin: Int32, api: Outcome) returns (r: Reply<string>)
    modifies store
    ensures r == if api == Returned then Value(Int32ToString(coin)) else Failed
    ensures store.items == if api == Returned then old(store.items)[CoinKey := Int32ToString(coin)]
                           else old(store.items)
  {
    var coinStr := Int32ToString(coin);
    var ok := SavePlayerData(store, CoinKey, coinStr, api);
    r := if ok then Value(coinStr) else Failed;
  }

  /**
   * Reads the coin count: 0 for an empty or absent value, the parsed value
   * otherwise; text `int.Parse` rejects makes it fail.
   */
  function GetCoin(items: map<string, string>, api: Outcome): (r: Reply<Int32>)
    ensures api == Threw ==> r == Failed
    ensures api == Returned && (CoinKey !in items || items[CoinKey] == "") ==> r == Value(0)
    ensures api == Returned && CoinKey in items && items[CoinKey] != "" ==>
              r == (match ParseInt32(items[CoinKey]) case Some(n) => Value(n) case None => Failed)
  {
    match GetPlayerData(items, CoinKey, api)
    case Failed => Failed
    case Value(coinStr) =>
      if coinStr == "" then Value(0)
      else match ParseInt32(coinStr)
        case Some(n) => Value(n)
        case None => Failed
  }

  /** The two keys are different slots of the record. */
  lemma KeysDistinct()
    ensures PlayerNameKey != CoinKey
  {
  }

  /** Reading the name back after saving it gives the saved name. */
  lemma PlayerNameRoundTrip(items: map<string, string>, name: string)
    ensures GetPlayerName(items[PlayerNameKey := name], Returned) == Value(name)
  {
  }

  /** Reading the coins back after saving `n` gives `n`. */
  lemma CoinRoundTrip(items: map<string, string>, n: Int32)
    ensures GetCoin(items[CoinKey := Int32ToString(n)], Returned) == Value(n)
  {
    ParseInt32OfInt32ToString(n);
  }

  /** Saving a name leaves the stored coins as they were. */
  lemma SaveNameKeepsCoin(items: map<string, string>, name: string, api: Outcome)
    ensures GetCoin(items[PlayerNameKey := name], api) == GetCoin(items, api)
  {
  }

  /** Saving the coins leaves the stored name as it was. */
  lemma SaveCoinKeepsName(items: map<string, string>, n: Int32, api: Outcome)
    ensures GetPlayerName(items[CoinKey := Int32ToString(n)], api) == GetPlayerName(items, api)
  {
  }

  /** A non-empty coin value holding a character `int.Parse` never accepts makes the read fail, not return 0. */
  lemma GetCoinRejectsNonNumeric(items: map<string, string>, i: nat)
    requires CoinKey in items && i < |items[CoinKey]| && !IsNumeric(items[CoinKey][i])
    ensures GetCoin(items, Returned) == Failed
  {
  }
}
