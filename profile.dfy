/**
 * The client's player profile controller: the player's name and coin
 * counter, loaded from the server when the player signs in, changed by the
 * UI's buttons, and saved through the server's Cloud Code functions.
 * Each remote call is a parameter that says what the call gave back.
 */
module Profile {
  import opened Outcomes
  import opened Decimal

  const TooShortMessage: string := "Name too short."
  const TooLongMessage: string := "Name too long."
  const NonAlphanumericMessage: string := "Name contains non-alphanumeric characters."

  /**
   * `char.IsLetterOrDigit`, restricted to ASCII: Unicode letters and
   * digits outside ASCII are not modelled.
   */
  predicate IsLetterOrDigit(c: char)
    ensures IsLetterOrDigit(c) ==> c as int < 0x80 && !IsWhite(c) && c != '-' && c != '+'
  {
    'a' <= c <= 'z' || 'A' <= c <= 'Z' || '0' <= c <= '9'
  }

  /**
   * C#'s `string.Length`: the number of UTF-16 code units, two for each
   * character outside the Basic Multilingual Plane.
   */
  function Utf16Length(s: string): (n: nat)
    ensures |s| <= n <= 2 * |s|
  {
    if s == [] then 0 else Utf16Length(s[..|s| - 1]) + (if s[|s| - 1] as int >= 0x1_0000 then 2 else 1)
  }

  /** For text inside the Basic Multilingual Plane, C#'s length is the number of characters. */
  lemma {:induction false} Utf16LengthOfBmp(s: string)
    requires forall i :: 0 <= i < |s| ==> s[i] as int < 0x1_0000
    ensures Utf16Length(s) == |s|
  {
    if s != [] {
      Utf16LengthOfBmp(s[..|s| - 1]);
    }
  }

  /** A name the player may choose: 4 to 16 UTF-16 code units, letters and digits only. */
  predicate ValidName(name: string) {
    4 <= Utf16Length(name) <= 16 && forall i :: 0 <= i < |name| ==> IsLetterOrDigit(name[i])
  }

  /** A valid name is plain ASCII, so its C# length is its number of characters. */
  lemma ValidNameLength(name: string)
    requires ValidName(name)
    ensures 4 <= |name| <= 16
  {
    Utf16LengthOfBmp(name);
  }

  /**
   * `IsPlayerNameValid`: no message for a valid name; otherwise the message
   * of the first rule broken, the rules taken in the order too short, too
   * long, non-alphanumeric.
   */
  function IsPlayerNameValid(name: string): (r: Option<string>)
    ensures r == None <==> ValidName(name)
    ensures Utf16Length(name) < 4 ==> r == Some(TooShortMessage)
    ensures Utf16Length(name) > 16 ==> r == Some(TooLongMessage)
    ensures 4 <= Utf16Length(name) <= 16 && r != None ==> r == Some(NonAlphanumericMessage)
  {
    if Utf16Length(name) < 4 then Some(TooShortMessage)
    else if Utf16Length(name) > 16 then Some(TooLongMessage)
    else if !(forall i :: 0 <= i < |name| ==> IsLetterOrDigit(name[i])) then Some(NonAlphanumericMessage)
    else None
  }

  /** The check `SaveCoin` applies to the server's reply: a non-null echo equal to the counter's text. */
  predicate EchoConfirms(echo: Option<string>, coin: Int32)
    ensures EchoConfirms(echo, coin) ==> echo.Some? && echo.value != ""
  {
    echo == Some(Int32ToString(coin))
  }

  /** An echo that passes the check decodes to the counter it confirms. */
  lemma EchoConfirmsDecodes(echo: Option<string>, coin: Int32)
    requires EchoConfirms(echo, coin)
    ensures echo.Some? && ParseInt32(echo.value) == Some(coin)
  {
    ParseInt32OfInt32ToString(coin);
  }

  /** An echo that passes the check for two counters means they are the same counter. */
  lemma EchoConfirmsOnlyItsCounter(echo: Option<string>, m: Int32, n: Int32)
    requires EchoConfirms(echo, m) && EchoConfirms(echo, n)
    ensures m == n
  {
    Int32ToStringInjective(m, n);
  }

  /** `CoinCounter++` on a C# `int`: wraps around from the largest value to the smallest. */
  function Increment(c: Int32): (r: Int32)
    ensures c < Int32Max ==> r as int == c as int + 1
    ensures c == Int32Max ==> r as int == Int32Min
  {
    if c == Int32Max then Int32Min else c + 1
  }

  /** The counter after `n` presses of the add-coin button. */
  function IncrementTimes(c: Int32, n: nat): Int32
  {
    if n == 0 then c else Increment(IncrementTimes(c, n - 1))
  }

  /** Until it wraps, `n` increments add exactly `n`. */
  lemma {:induction false} IncrementTimesAdds(c: Int32, n: nat)
    requires c as int + n <= Int32Max
    ensures IncrementTimes(c, n) as int == c as int + n
  {
    if n > 0 {
      IncrementTimesAdds(c, n - 1);
    }
  }

  /** The text shown for the player name. */
  function PlayerNameText(name: Option<string>): (r: string)
    ensures r == "PlayerName not set." <==> name == None || name == Some("")
    ensures name.Some? && name.value != "" ==> r == "PlayerName: " + name.value
  {
    if name.Some? && name.value != "" then
      var shown := "PlayerName: " + name.value;
      assert shown[10] != "PlayerName not set."[10];
      shown
    else "PlayerName not set."
  }

  /** The text shown for the coin counter: singular up to 1, plural above. */
  function CoinText(coin: Int32): (r: string)
    ensures |r| >= 17 && r[..10] == "You have: "
    ensures coin > 1 <==> r[|r| - 7..] == " coins."
  {
    var number := Int32ToString(coin);
    var unit := if coin <= 1 then " coin." else " coins.";
    var text := "You have: " + number + unit;
    assert text[..10] == "You have: ";
    if coin <= 1 then
      assert IsDigit(number[|number| - 1]);
      assert text[|text| - 7] == number[|number| - 1];
      text
    else
      assert text[|text| - 7..] == unit;
      text
  }

  /** The Cloud Code functions the client calls, with their arguments. */
  datatype BindingCall =
    | GetPlayerNameCall
    | GetCoinCall
    | SavePlayerNameCall(newName: string)
    | SaveCoinCall(coin: Int32)

  class PlayerDataManager {
    /** The player's name; `None` is `null`, before it is loaded. */
    var playerName: Option<string>
    var coinCounter: Int32
    /** The Cloud Code calls made so far, oldest first. */
    var calls: seq<BindingCall>

    constructor ()
      ensures playerName == None && coinCounter == 0 && calls == []
    {
      playerName := None;
      coinCounter := 0;
      calls := [];
    }

    /**
     * Runs on every sign-in: the name is fetched and adopted first, then the
     * coins. A failed call ends the step; what was adopted before it stays.
     */
    method InitializePlayer(nameReply: Reply<Option<string>>, coinReply: Reply<Int32>)
      modifies this
      ensures nameReply.Failed? ==>
                calls == old(calls) + [GetPlayerNameCall]
                && playerName == old(playerName) && coinCounter == old(coinCounter)
      ensures nameReply.Value? ==>
                calls == old(calls) + [GetPlayerNameCall, GetCoinCall]
                && playerName == nameReply.value
                && coinCounter == (if coinReply.Value? then coinReply.value else old(coinCounter))
    {
      calls := calls + [GetPlayerNameCall];
      if nameReply.Failed? {
        return;
      }
      playerName := nameReply.value;
      calls := calls + [GetCoinCall];
      if coinReply.Failed? {
        return;
      }
      coinCounter := coinReply.value;
    }

    /**
     * Saves the name typed in the input field. An invalid name is refused
     * before any call; a valid one is sent and the server's reply becomes
     * the player name, unless the call fails.
     */
    method SavePlayerName(newName: string, reply: Reply<Option<string>>) returns (message: Option<string>)
      modifies this
      ensures message == IsPlayerNameValid(newName)
      ensures coinCounter == old(coinCounter)
      ensures !ValidName(newName) ==> calls == old(calls) && playerName == old(playerName)
      ensures ValidName(newName) ==>
                calls == old(calls) + [SavePlayerNameCall(newName)]
                && playerName == (if reply.Value? then reply.value else old(playerName))
    {
      message := IsPlayerNameValid(newName);
      if message != None {
        return;
      }
      calls := calls + [SavePlayerNameCall(newName)];
      if reply.Value? {
        playerName := reply.value;
      }
    }

    method AddCoin()
      modifies this`coinCounter
      ensures coinCounter == Increment(old(coinCounter))
    {
      coinCounter := Increment(coinCounter);
    }

    method ResetCoin()
      modifies this`coinCounter
      ensures coinCounter == 0
    {
      coinCounter := 0;
    }

    /**
     * Sends the counter to the server and checks the echo: `saved` is false
     * when the call fails or the echo does not confirm the counter. The
     * counter itself is never changed.
     */
    method SaveCoin(reply: Reply<Option<string>>) returns (saved: bool)
      modifies this`calls
      ensures calls == old(calls) + [SaveCoinCall(coinCounter)]
      ensures saved <==> reply.Value? && EchoConfirms(reply.value, coinCounter)
    {
      calls := calls + [SaveCoinCall(coinCounter)];
      saved := reply.Value? && EchoConfirms(reply.value, coinCounter);
    }
  }

  /** Three presses of the add-coin button from a fresh controller, then a save the server confirms. */
  method AddThreeThenSave() returns (coins: Int32, sent: seq<BindingCall>, saved: bool)
    ensures coins == 3 && sent == [SaveCoinCall(3)] && saved
  {
    var m := new PlayerDataManager();
    m.AddCoin();
    m.AddCoin();
    m.AddCoin();
    saved := m.SaveCoin(Value(Some("3")));
    coins, sent := m.coinCounter, m.calls;
  }

  /** The same, against a store that echoes something else: the save fails and the counter stays 3. */
  method AddThreeThenBadEcho() returns (coins: Int32, saved: bool)
    ensures coins == 3 && !saved
  {
    var m := new PlayerDataManager();
    m.AddCoin();
    m.AddCoin();
    m.AddCoin();
    saved := m.SaveCoin(Value(Some("03")));
    coins := m.coinCounter;
  }

  /**
   * A name of two letters and an emoji has C# length 4, so it is reported as
   * non-alphanumeric, not as too short.
   */
  method EmojiNameIsNonAlphanumeric() returns (message: Option<string>, sent: seq<BindingCall>)
    ensures message == Some(NonAlphanumericMessage) && sent == []
  {
    var m := new PlayerDataManager();
    message := m.SavePlayerName("ab\U{1F600}", Value(Some("ab")));
    sent := m.calls;
  }

  /** A three-character name with a symbol is reported as too short and makes no call. */
  method ShortSymbolNameIsTooShort() returns (message: Option<string>, sent: seq<BindingCall>, name: Option<string>)
    ensures message == Some(TooShortMessage) && sent == [] && name == None
  {
    var m := new PlayerDataManager();
    Utf16LengthOfBmp("a!b");
    message := m.SavePlayerName("a!b", Value(Some("a!b")));
    sent, name := m.calls, m.playerName;
  }
}
