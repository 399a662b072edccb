# Unity sign-in integration: login, player profile and cloud player data

This project models the three pieces of logic in a Unity game client that
signs players in with Unity Player Accounts or Facebook, and keeps a
player name and a coin counter in Unity Cloud Save through a Cloud Code
module:

- **Login** (`LoginManager`). The login state (`None`, `Unity`, `Facebook`),
  the Facebook access token, and the Unity and Facebook sign-in and
  sign-out paths. A class whose methods change those fields, record each
  SDK call, record each firing of the `PlayerSignedIn` event, and reset the
  profile's coin counter on sign-out.
- **Profile** (`PlayerDataManager`). The player-name validator, a pure
  function. A class holding the player name, the coin counter and a record
  of the Cloud Code calls made, with methods to load, increment, reset and
  save.
- **CloudService** (`PlayerDataService`). The server's get and set of the
  keys `PLAYER_NAME` and `COIN` over one player's Cloud Save record. The
  record is a `map<string, string>` held by a `CloudSave` object.
- **Decimal**. `Int32.ToString()` and `int.Parse`, which the server uses
  to store the coins and the client uses to check the server's echo.
- **Integration**. The client's calls answered by this server.

Every call into a vendor SDK is a parameter, including Facebook's login
dialog and logout. For a call whose result is not used, the parameter is
an `Outcome` (`Returned` or `Threw`). For a
remote call that returns a value, it is a `Reply` (`Value(v)` or `Failed`).
`async` methods are sequential steps. A C# `null` string is
`Option<string>.None`, and C# `int` is `Int32`.

The code has these behaviours, which the model keeps:

- A sign-out does not always reach the signed-out state. A Facebook
  sign-out whose Unity Authentication sign-out throws stays in `Facebook`.
  A Unity sign-out whose sign-out call throws changes nothing after that
  call.
- The Facebook token is not tied to the login state. A failed token
  exchange keeps the token while the state stays as it was. A failed
  Facebook sign-out clears the token while the state stays `Facebook`.
- Unity sign-in with the player account already signed in is not
  idempotent. It runs the token exchange again and fires `PlayerSignedIn`
  again.
- A Facebook sign-out whose `FB.LogOut` throws changes nothing else. The
  token is kept.
- Signing in with one provider while signed in with the other overwrites
  the state. Neither sign-out path runs.
- No signed-out event is ever fired. Sign-out resets the coin counter but
  not the player name.
- The coin counter is a C# `int`. It wraps from 2147483647 to -2147483648
  and may be negative.
- A stored coin value that `int.Parse` rejects makes the read fail. It is
  not read as 0. Only an empty or absent value reads as 0, so a value of
  white space alone fails.

## Model

| member | source | states |
|---|---|---|
| `Decimal.Int32ToString` | UnitySignInIntegrationCloud/Project/PlayerDataService.cs:91 | the decimal text is non-empty, starts with '-' exactly for negative values, and the rest is digits |
| `Decimal.ParseInt32` | UnitySignInIntegrationCloud/Project/PlayerDataService.cs:104 | `int.Parse` under `NumberStyles.Integer`: surrounding white space, one optional sign, digits, `int` range; any accepted text consists only of digits, signs and white space |
| `Decimal.ParseInt32OfInt32ToString` | UnitySignInIntegrationCloud/Project/PlayerDataService.cs:89-105 | parsing the decimal text of any `int` gives that `int` back |
| `Decimal.Int32ToStringInjective` | Assets/Scripts/PlayerDataManager.cs:112 | two `int`s with the same decimal text are equal, so the echo comparison identifies the counter |
| `CloudService.SavePlayerData` | UnitySignInIntegrationCloud/Project/PlayerDataService.cs:29-47 | a successful write stores the value under the key and nothing else; a failed write throws and leaves the record unchanged |
| `CloudService.GetPlayerData` | UnitySignInIntegrationCloud/Project/PlayerDataService.cs:49-69 | the stored value for the key, `""` when the key is absent, and an exception (not a default value) when the API call fails |
| `CloudService.SavePlayerName` | UnitySignInIntegrationCloud/Project/PlayerDataService.cs:73-78 | writes the argument under `PLAYER_NAME` and returns exactly that argument |
| `CloudService.GetPlayerName` | UnitySignInIntegrationCloud/Project/PlayerDataService.cs:80-85 | the value under `PLAYER_NAME`, `""` when absent, failure only when the API fails |
| `CloudService.SaveCoin` | UnitySignInIntegrationCloud/Project/PlayerDataService.cs:88-94 | writes the coin's decimal text under `COIN` and returns that same text |
| `CloudService.GetCoin` | UnitySignInIntegrationCloud/Project/PlayerDataService.cs:96-106 | 0 for an absent or empty value, the parsed `int` otherwise, failure when the API fails or `int.Parse` rejects the text |
| `CloudService.KeysDistinct` | UnitySignInIntegrationCloud/Project/PlayerDataService.cs:18 | the two keys are different |
| `CloudService.PlayerNameRoundTrip` | UnitySignInIntegrationCloud/Project/PlayerDataService.cs:73-85 | reading the name after saving `s` gives `s` |
| `CloudService.CoinRoundTrip` | UnitySignInIntegrationCloud/Project/PlayerDataService.cs:88-106 | reading the coins after saving `n` gives `n` |
| `CloudService.SaveNameKeepsCoin` | UnitySignInIntegrationCloud/Project/PlayerDataService.cs:18 | saving the name leaves what a coin read returns unchanged |
| `CloudService.SaveCoinKeepsName` | UnitySignInIntegrationCloud/Project/PlayerDataService.cs:18 | saving the coins leaves what a name read returns unchanged |
| `CloudService.GetCoinRejectsNonNumeric` | UnitySignInIntegrationCloud/Project/PlayerDataService.cs:104 | a stored coin value containing a character that is not a digit, a sign or white space makes the read fail rather than return 0 |
| `Profile.IsLetterOrDigit` | Assets/Scripts/PlayerDataManager.cs:87 | `char.IsLetterOrDigit` on ASCII: an accepted character is ASCII and is neither white space nor a sign |
| `Profile.Utf16Length` | Assets/Scripts/PlayerDataManager.cs:79 | C#'s `string.Length`: one UTF-16 code unit per character, two for characters outside the Basic Multilingual Plane |
| `Profile.Utf16LengthOfBmp` | Assets/Scripts/PlayerDataManager.cs:79 | for text inside the Basic Multilingual Plane, C#'s length is the number of characters |
| `Profile.ValidNameLength` | Assets/Scripts/PlayerDataManager.cs:79-88 | an accepted name has 4 to 16 characters |
| `Profile.IsPlayerNameValid` | Assets/Scripts/PlayerDataManager.cs:77-92 | no message iff the UTF-16 length is 4..16 and every character is a letter or digit; too short takes precedence over too long, and both over non-alphanumeric |
| `Profile.EchoConfirms` | Assets/Scripts/PlayerDataManager.cs:112 | the echo check passes only for a non-null, non-empty echo |
| `Profile.EchoConfirmsDecodes` | Assets/Scripts/PlayerDataManager.cs:112 | an echo that passes the check is non-null and parses back to the counter |
| `Profile.EchoConfirmsOnlyItsCounter` | Assets/Scripts/PlayerDataManager.cs:112 | an echo passes the check for at most one counter value |
| `Profile.Increment` | Assets/Scripts/PlayerDataManager.cs:97 | `CoinCounter++` adds 1 below the `int` maximum and wraps to the minimum at it |
| `Profile.IncrementTimesAdds` | Assets/Scripts/PlayerDataManager.cs:95-99 | `n` increments from `c` give `c + n` as long as that fits in an `int`, so `N` presses from 0 give `N` |
| `Profile.PlayerNameText` | Assets/Scripts/PlayerDataManager.cs:125-135 | "PlayerName not set." exactly when the name is null or empty, otherwise the name after "PlayerName: " |
| `Profile.CoinText` | Assets/Scripts/PlayerDataManager.cs:137-147 | the text starts with "You have: " and ends with " coins." exactly when the counter is above 1 |
| `Profile.PlayerDataManager.constructor` | Assets/Scripts/PlayerDataManager.cs:15-16 | the name starts null, the counter 0, no calls made |
| `Profile.PlayerDataManager.InitializePlayer` | Assets/Scripts/PlayerDataManager.cs:35-51 | the name is fetched and adopted before the coins; a failed name fetch changes nothing; a failed coin fetch keeps the new name and the old counter |
| `Profile.PlayerDataManager.SavePlayerName` | Assets/Scripts/PlayerDataManager.cs:55-75 | an invalid name makes no call and keeps the name; a valid one is sent and the reply becomes the name, unless the call fails; the counter never changes |
| `Profile.PlayerDataManager.AddCoin` | Assets/Scripts/PlayerDataManager.cs:95-99 | the counter becomes its wrap-around increment |
| `Profile.PlayerDataManager.ResetCoin` | Assets/Scripts/PlayerDataManager.cs:101-105 | the counter becomes 0 whatever it was |
| `Profile.PlayerDataManager.SaveCoin` | Assets/Scripts/PlayerDataManager.cs:107-122 | sends the counter; reports failure iff the call fails or the echo is null or differs from the counter's text; never changes the counter |
| `Profile.AddThreeThenSave` | Assets/Scripts/PlayerDataManager.cs:95-122 | three adds from 0 give 3, the save sends 3 and an echo of "3" passes |
| `Profile.AddThreeThenBadEcho` | Assets/Scripts/PlayerDataManager.cs:107-122 | an echo differing from "3" fails the save and the counter stays 3 |
| `Profile.EmojiNameIsNonAlphanumeric` | Assets/Scripts/PlayerDataManager.cs:55-92 | two letters and an emoji have C# length 4, so the name is reported as non-alphanumeric, not too short, and no call is made |
| `Profile.ShortSymbolNameIsTooShort` | Assets/Scripts/PlayerDataManager.cs:55-92 | a 3-character name containing '!' reports "too short", makes no call, and leaves the name null |
| `Login.LoginStateText` | Assets/Scripts/LoginManager.cs:227-241 | the state's name after "LoginState: " |
| `Login.LoginStateTextDistinct` | Assets/Scripts/LoginManager.cs:227-241 | different states show different texts |
| `Login.LoginManager.constructor` | Assets/Scripts/LoginManager.cs:77-86 | the login state starts as `None`, with no token and no calls |
| `Login.LoginManager.StartUnitySignIn` | Assets/Scripts/LoginManager.cs:90-109 | with the account already signed in, the token exchange runs at once and `StartSignInAsync` is skipped; otherwise only the account sign-in starts, and the completion handler is subscribed if it returns |
| `Login.LoginManager.OnUnitySignedIn` | Assets/Scripts/LoginManager.cs:111-128 | unsubscribes; a successful exchange sets `Unity` and fires `PlayerSignedIn` once; a failed one changes no state and fires nothing |
| `Login.LoginManager.UnitySignOut` | Assets/Scripts/LoginManager.cs:130-142 | once both sign-out calls return, the state is `None` and the counter 0; a throwing call stops the step with state and counter unchanged |
| `Login.LoginManager.FacebookSignIn` | Assets/Scripts/LoginManager.cs:145-168 | asks for "public_profile" and "email"; a throwing login call or a cancelled login changes nothing; a logged-in result keeps the token and runs the exchange |
| `Login.LoginManager.SignInWithFacebook` | Assets/Scripts/LoginManager.cs:170-184 | a successful exchange sets `Facebook` and fires `PlayerSignedIn` once; a failed one changes no state and fires nothing |
| `Login.LoginManager.FacebookSignOut` | Assets/Scripts/LoginManager.cs:186-208 | a throwing Facebook logout changes nothing else; otherwise the token is cleared, and the state becomes `None` and the counter 0 only if the Authentication sign-out returns, otherwise they stay |
| `Login.LoginManager.Logout` | Assets/Scripts/LoginManager.cs:211-224 | in `None` nothing is called or changed; in `Unity` and `Facebook` the matching sign-out path runs; every path keeps the invariant that `PlayerSignedIn` fired once per successful exchange |
| `Login.FacebookSignOutFailureStaysFacebook` | Assets/Scripts/LoginManager.cs:186-224 | a Facebook logout whose Authentication sign-out throws leaves the state `Facebook`, the token cleared and the coins as they were |
| `Login.FacebookLogOutThrowKeepsToken` | Assets/Scripts/LoginManager.cs:186-224 | a Facebook logout whose `FB.LogOut` throws keeps the token and the `Facebook` state and makes no further call |
| `Login.UnityReSignInFiresAgain` | Assets/Scripts/LoginManager.cs:94-127 | two Unity sign-ins with the account already signed in make two exchanges and fire `PlayerSignedIn` twice |
| `Login.SwitchProviderSkipsSignOut` | Assets/Scripts/LoginManager.cs:111-184 | a Facebook sign-in while signed in with Unity sets `Facebook` without any sign-out call |
| `Login.LogoutKeepsPlayerName` | Assets/Scripts/LoginManager.cs:130-142 | a Unity logout resets the coins to 0 but keeps the loaded player name |
| `Login.FailedFacebookExchangeKeepsToken` | Assets/Scripts/LoginManager.cs:151-183 | a failed Facebook exchange leaves the state `None` while the token is kept |
| `Login.CancelledFacebookLogin` | Assets/Scripts/LoginManager.cs:151-162 | a cancelled Facebook login calls nothing after the login dialog and changes no state |
| `Integration.SaveCoinAgainstServer` | UnitySignInIntegrationCloud/Project/PlayerDataService.cs:88-94 | against this server the client's echo check passes exactly when the write succeeds, and the record then holds the counter's text; the client records one save call with its counter |
| `Integration.SavePlayerNameAgainstServer` | Assets/Scripts/PlayerDataManager.cs:55-75 | against this server a valid name is stored and adopted as given; an invalid name makes no call and a failed write changes neither side; a valid name records one save call; the coin counter never changes |
| `Integration.InitializeFromServer` | Assets/Scripts/PlayerDataManager.cs:35-51 | a load from this server adopts the stored name (`""` when absent) and the decoded coins; a failed name read keeps name and counter; a failed coin read (API error or text `int.Parse` rejects) keeps the counter; the name is fetched first and a failed name fetch makes no coin call |
| `Integration.CoinSurvivesRestart` | UnitySignInIntegrationCloud/Project/PlayerDataService.cs:88-106 | empty record: load gives 0, add and save succeed, and a fresh client then loads 1 |
| `Integration.NameSurvivesRestart` | UnitySignInIntegrationCloud/Project/PlayerDataService.cs:73-85 | a valid name saved by one client is the name a fresh client loads |
| `Integration.SavedCoinLoadsBack` | UnitySignInIntegrationCloud/Project/PlayerDataService.cs:88-106 | a saved counter is read back unchanged, even after a later name save |

## Left out

- Profile.IsPlayerNameValid: length is counted in UTF-16 code units, as C# does, but letters and digits are ASCII only (`Profile.IsLetterOrDigit`). .NET's `char.IsLetterOrDigit` also accepts non-ASCII Unicode letters and digits, and the model does not include the Unicode tables.
- Profile.IsLetterOrDigit: accepts ASCII letters and digits only. .NET's `char.IsLetterOrDigit` also accepts other Unicode letters and digits; the Unicode tables are not modelled.
- Decimal.ParseInt32: assumes the invariant culture, with '-' and '+' as the signs. It does not accept the trailing NUL characters that .NET's parser tolerates.
- Decimal.Int32ToString: assumes the invariant culture's negative sign.
- CloudService.SavePlayerData: a write that throws is assumed to leave the record unchanged. Whether Cloud Save applied a write before failing cannot be known.
- Only string values are stored. The `?.Value?.ToString()` conversion of non-string Cloud Save values is not modelled.
- The execution context (access token, project and player ids) is not modelled. It is replaced by the one player's `CloudSave` record passed to each operation.
- SDK initialization (`Awake`, `InitializeFacebook`, `FacebookInitCallback`, `InitializeUnity`), `ModuleConfig` and logging are foreign calls with no logic of their own.
- Button wiring, the TextMeshPro fields, `ResetPlayerNameUI` and the unsubscriptions in `OnDestroy` and `OnDisable` are left out. Only the text choices are kept, as `Login.LoginStateText`, `Profile.PlayerNameText` and `Profile.CoinText`.
- `async void` scheduling and overlapping button presses are concurrency. Each operation is one sequential step.
- Event dispatch is not modelled. A firing of `PlayerSignedIn` is recorded in the call record. Its subscriber `InitializePlayer` is a separate operation the host runs afterwards.
- A multicast `SignedIn` delegate subscribed more than once is kept only as a subscription count (`unityHandlers`).
- Only the Android branch of `FacebookSignIn` is modelled. The iOS branch is empty in the code.
- Exceptions other than `RequestFailedException` thrown inside the sign-in handlers are not modelled.
- `PlayerSignedOut` is declared but never fired, so the model has no signed-out notification and no name reset.
