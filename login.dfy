/**
 * The client's login controller: which provider the player is signed in
 * with, the Facebook access token, and the two sign-in and sign-out paths.
 * Every call into the Unity Player Accounts, Unity Authentication and
 * Facebook SDKs is a parameter that says whether the call returned or
 * threw, and is written to a record of calls so that what was called, and
 * when the `PlayerSignedIn` event fired, can be stated.
 */
module Login {
  import Outcomes
  import opened Profile

  datatype LoginState = None | Unity | Facebook

  /** Permissions asked of Facebook at sign-in. */
  const FacebookPermissions: seq<string> := ["public_profile", "email"]

  /** The SDK calls the controller makes, and the firing of its `PlayerSignedIn` event. */
  datatype Call =
    | AccountStartSignIn(outcome: Outcomes.Outcome)
    | AuthSignInWithUnity(outcome: Outcomes.Outcome)
    | FacebookLogIn(permissions: seq<string>, outcome: Outcomes.Outcome)
    | AuthSignInWithFacebook(token: string, outcome: Outcomes.Outcome)
    | AuthSignOut(outcome: Outcomes.Outcome)
    | AccountSignOut(outcome: Outcomes.Outcome)
    | FacebookLogOut(outcome: Outcomes.Outcome)
    | PlayerSignedInFired

  /** The text `UpdateLoginStateUI` shows for a state. */
  function LoginStateText(state: LoginState): (r: string)
    ensures r == "LoginState: " + (match state case None => "None" case Unity => "Unity" case Facebook => "Facebook")
  {
    match state
    case Unity => "LoginState: Unity"
    case Facebook => "LoginState: Facebook"
    case None => "LoginState: None"
  }

  /** Each state has its own text. */
  lemma LoginStateTextDistinct(a: LoginState, b: LoginState)
    requires LoginStateText(a) == LoginStateText(b)
    ensures a == b
  {
  }

  /** Whether a call is an authentication exchange that succeeded, and with which provider. */
  function SignInProvider(c: Call): LoginState
  {
    match c
    case AuthSignInWithUnity(Returned) => Unity
    case AuthSignInWithFacebook(_, Returned) => Facebook
    case _ => None
  }

  /** The number of successful authentication exchanges in a call record. */
  function SignIns(calls: seq<Call>): nat
  {
    if calls == [] then 0
    else SignIns(calls[..|calls| - 1]) + (if SignInProvider(calls[|calls| - 1]) != None then 1 else 0)
  }

  /** The number of times `PlayerSignedIn` fired in a call record. */
  function Firings(calls: seq<Call>): nat
  {
    if calls == [] then 0
    else Firings(calls[..|calls| - 1]) + (if calls[|calls| - 1] == PlayerSignedInFired then 1 else 0)
  }

  /** The provider of the last successful authentication exchange, `None` when there was none. */
  function LastSignIn(calls: seq<Call>): LoginState
  {
    if calls == [] then None
    else if SignInProvider(calls[|calls| - 1]) != None then SignInProvider(calls[|calls| - 1])
    else LastSignIn(calls[..|calls| - 1])
  }

  /** How the three tallies change when one call is appended to the record. */
  lemma AppendCall(calls: seq<Call>, c: Call)
    ensures SignIns(calls + [c]) == SignIns(calls) + (if SignInProvider(c) != None then 1 else 0)
    ensures Firings(calls + [c]) == Firings(calls) + (if c == PlayerSignedInFired then 1 else 0)
    ensures LastSignIn(calls + [c]) == if SignInProvider(c) != None then SignInProvider(c) else LastSignIn(calls)
  {
  }

  class LoginManager {
    var currentLogin: LoginState
    /** `FacebookToken`; `Outcomes.None` is `null`. */
    var facebookToken: Outcomes.Option<string>
    /** How many times `OnUnitySignedIn` is subscribed to the Player Accounts `SignedIn` event. */
    var unityHandlers: nat
    /** The SDK calls made and events fired so far, oldest first. */
    var calls: seq<Call>
    const playerDataManager: PlayerDataManager

    /**
     * `PlayerSignedIn` fires exactly once per successful authentication
     * exchange, and a signed-in state names the provider of the last one.
     */
    ghost predicate Valid()
      reads this
    {
      Firings(calls) == SignIns(calls)
      && (currentLogin == None || currentLogin == LastSignIn(calls))
    }

    /** The state after `Start`: signed out, no token, nothing called yet. */
    constructor (playerDataManager: PlayerDataManager)
      ensures Valid()
      ensures currentLogin == None && facebookToken == Outcomes.None && unityHandlers == 0 && calls == []
      ensures this.playerDataManager == playerDataManager
    {
      currentLogin := None;
      facebookToken := Outcomes.None;
      unityHandlers := 0;
      calls := [];
      this.playerDataManager := playerDataManager;
    }

    /** Appends one call to the record, keeping the tallies in step. */
    method Record(c: Call)
      modifies this`calls
      ensures calls == old(calls) + [c]
      ensures SignIns(calls) == SignIns(old(calls)) + (if SignInProvider(c) != None then 1 else 0)
      ensures Firings(calls) == Firings(old(calls)) + (if c == PlayerSignedInFired then 1 else 0)
      ensures LastSignIn(calls) == if SignInProvider(c) != None then SignInProvider(c) else LastSignIn(old(calls))
    {
      AppendCall(calls, c);
      calls := calls + [c];
    }

    /**
     * The Unity sign-in button. When the player account is already signed
     * in, the authentication exchange runs at once; otherwise the account
     * sign-in starts and, if that call returns, `OnUnitySignedIn` is
     * subscribed to run when the account's sign-in completes.
     */
    method StartUnitySignIn(accountSignedIn: bool, start: Outcomes.Outcome, auth: Outcomes.Outcome)
      requires Valid()
      modifies this
      ensures Valid()
      ensures facebookToken == old(facebookToken)
      ensures accountSignedIn ==>
                calls == old(calls) + (if auth == Outcomes.Returned then [AuthSignInWithUnity(auth), PlayerSignedInFired]
                                       else [AuthSignInWithUnity(auth)])
                && currentLogin == (if auth == Outcomes.Returned then Unity else old(currentLogin))
                && unityHandlers == (if old(unityHandlers) > 0 then old(unityHandlers) - 1 else 0)
      ensures !accountSignedIn ==>
                calls == old(calls) + [AccountStartSignIn(start)]
                && currentLogin == old(currentLogin)
                && unityHandlers == old(unityHandlers) + (if start == Outcomes.Returned then 1 else 0)
    {
      if accountSignedIn {
        OnUnitySignedIn(auth);
        return;
      }
      Record(AccountStartSignIn(start));
      if start == Outcomes.Returned {
        unityHandlers := unityHandlers + 1;
      }
    }

    /**
     * The account's sign-in completed: unsubscribe, then exchange the
     * account's access token with Unity Authentication. On success the
     * state becomes `Unity` and `PlayerSignedIn` fires; on failure nothing
     * else changes.
     */
    method OnUnitySignedIn(auth: Outcomes.Outcome)
      requires Valid()
      modifies this
      ensures Valid()
      ensures facebookToken == old(facebookToken)
      ensures unityHandlers == if old(unityHandlers) > 0 then old(unityHandlers) - 1 else 0
      ensures auth == Outcomes.Returned ==>
                currentLogin == Unity && calls == old(calls) + [AuthSignInWithUnity(auth), PlayerSignedInFired]
      ensures auth == Outcomes.Threw ==>
                currentLogin == old(currentLogin) && calls == old(calls) + [AuthSignInWithUnity(auth)]
    {
      if unityHandlers > 0 {
        unityHandlers := unityHandlers - 1;
      }
      Record(AuthSignInWithUnity(auth));
      if auth == Outcomes.Returned {
        currentLogin := Unity;
        Record(PlayerSignedInFired);
      }
    }

    /**
     * Signs out of Unity Authentication, then of Player Accounts, then
     * marks the player signed out and resets the coin counter. A throwing
     * sign-out call ends the step there.
     */
    method UnitySignOut(authSignOut: Outcomes.Outcome, accountSignOut: Outcomes.Outcome)
      requires Valid()
      modifies this, playerDataManager`coinCounter
      ensures Valid()
      ensures facebookToken == old(facebookToken) && unityHandlers == old(unityHandlers)
      ensures calls == old(calls) + (if authSignOut == Outcomes.Returned then [AuthSignOut(authSignOut), AccountSignOut(accountSignOut)]
                                     else [AuthSignOut(authSignOut)])
      ensures authSignOut == Outcomes.Returned && accountSignOut == Outcomes.Returned ==>
                currentLogin == None && playerDataManager.coinCounter == 0
      ensures !(authSignOut == Outcomes.Returned && accountSignOut == Outcomes.Returned) ==>
                currentLogin == old(currentLogin) && playerDataManager.coinCounter == old(playerDataManager.coinCounter)
    {
      Record(AuthSignOut(authSignOut));
      if authSignOut == Outcomes.Threw {
        return;
      }
      Record(AccountSignOut(accountSignOut));
      if accountSignOut == Outcomes.Threw {
        return;
      }
      currentLogin := None;
      playerDataManager.ResetCoin();
    }

    /**
     * The Facebook sign-in button, with the login dialog's result. When the
     * call that opens the dialog throws, nothing more happens. When the
     * player is logged in to Facebook, the access token is kept and
     * exchanged with Unity Authentication; when the login was cancelled,
     * nothing more happens.
     */
    method FacebookSignIn(dialog: Outcomes.Outcome, loggedIn: bool, token: string, auth: Outcomes.Outcome)
      requires Valid()
      modifies this
      ensures Valid()
      ensures unityHandlers == old(unityHandlers)
      ensures dialog == Outcomes.Threw || !loggedIn ==>
                calls == old(calls) + [FacebookLogIn(FacebookPermissions, dialog)]
                && currentLogin == old(currentLogin) && facebookToken == old(facebookToken)
      ensures dialog == Outcomes.Returned && loggedIn ==>
                facebookToken == Outcomes.Some(token)
                && calls == old(calls) + [FacebookLogIn(FacebookPermissions, dialog)]
                                       + (if auth == Outcomes.Returned then [AuthSignInWithFacebook(token, auth), PlayerSignedInFired]
                                          else [AuthSignInWithFacebook(token, auth)])
                && currentLogin == (if auth == Outcomes.Returned then Facebook else old(currentLogin))
    {
      Record(FacebookLogIn(FacebookPermissions, dialog));
      if dialog == Outcomes.Threw {
        return;
      }
      if loggedIn {
        facebookToken := Outcomes.Some(token);
        SignInWithFacebook(token, auth);
      }
    }

    /** Exchanges a Facebook access token with Unity Authentication. */
    method SignInWithFacebook(token: string, auth: Outcomes.Outcome)
      requires Valid()
      modifies this`currentLogin, this`calls
      ensures Valid()
      ensures auth == Outcomes.Returned ==>
                currentLogin == Facebook && calls == old(calls) + [AuthSignInWithFacebook(token, auth), PlayerSignedInFired]
      ensures auth == Outcomes.Threw ==>
                currentLogin == old(currentLogin) && calls == old(calls) + [AuthSignInWithFacebook(token, auth)]
    {
      Record(AuthSignInWithFacebook(token, auth));
      if auth == Outcomes.Returned {
        currentLogin := Facebook;
        Record(PlayerSignedInFired);
      }
    }

    /**
     * Logs out of Facebook and forgets the token, then signs out of Unity
     * Authentication; only if that returns is the player marked signed out
     * and the coin counter reset. Its exception is caught and logged. A
     * throwing Facebook logout escapes before the token is cleared.
     */
    method FacebookSignOut(fbLogOut: Outcomes.Outcome, authSignOut: Outcomes.Outcome)
      requires Valid()
      modifies this, playerDataManager`coinCounter
      ensures Valid()
      ensures unityHandlers == old(unityHandlers)
      ensures fbLogOut == Outcomes.Threw ==>
                calls == old(calls) + [FacebookLogOut(fbLogOut)]
                && facebookToken == old(facebookToken) && currentLogin == old(currentLogin)
                && playerDataManager.coinCounter == old(playerDataManager.coinCounter)
      ensures fbLogOut == Outcomes.Returned ==>
                facebookToken == Outcomes.None
                && calls == old(calls) + [FacebookLogOut(fbLogOut), AuthSignOut(authSignOut)]
                && currentLogin == (if authSignOut == Outcomes.Returned then None else old(currentLogin))
                && playerDataManager.coinCounter == (if authSignOut == Outcomes.Returned then 0
                                                     else old(playerDataManager.coinCounter))
    {
      Record(FacebookLogOut(fbLogOut));
      if fbLogOut == Outcomes.Threw {
        return;
      }
      facebookToken := Outcomes.None;
      Record(AuthSignOut(authSignOut));
      if authSignOut == Outcomes.Returned {
        currentLogin := None;
        playerDataManager.ResetCoin();
      }
    }

    /**
     * The logout button: the sign-out path of the current provider, nothing
     * when signed out. Each parameter is the outcome of one sign-out call;
     * a path ignores the calls it does not make.
     */
    method Logout(fbLogOut: Outcomes.Outcome, authSignOut: Outcomes.Outcome, accountSignOut: Outcomes.Outcome)
      requires Valid()
      modifies this, playerDataManager`coinCounter
      ensures Valid()
      ensures unityHandlers == old(unityHandlers)
      ensures old(currentLogin) == None ==>
                currentLogin == None && facebookToken == old(facebookToken) && calls == old(calls)
                && playerDataManager.coinCounter == old(playerDataManager.coinCounter)
      ensures old(currentLogin) == Unity ==>
                facebookToken == old(facebookToken)
                && calls == old(calls) + (if authSignOut == Outcomes.Returned then [AuthSignOut(authSignOut), AccountSignOut(accountSignOut)]
                                          else [AuthSignOut(authSignOut)])
                && currentLogin == (if authSignOut == Outcomes.Returned && accountSignOut == Outcomes.Returned then None else Unity)
                && playerDataManager.coinCounter == (if currentLogin == None then 0 else old(playerDataManager.coinCounter))
      ensures old(currentLogin) == Facebook ==>
                facebookToken == (if fbLogOut == Outcomes.Returned then Outcomes.None else old(facebookToken))
                && calls == old(calls) + (if fbLogOut == Outcomes.Returned then [FacebookLogOut(fbLogOut), AuthSignOut(authSignOut)]
                                          else [FacebookLogOut(fbLogOut)])
                && currentLogin == (if fbLogOut == Outcomes.Returned && authSignOut == Outcomes.Returned then None else Facebook)
                && playerDataManager.coinCounter == (if currentLogin == None then 0 else old(playerDataManager.coinCounter))
    {
      match currentLogin
      case Unity => UnitySignOut(authSignOut, accountSignOut);
      case Facebook => FacebookSignOut(fbLogOut, authSignOut);
      case None =>
    }
  }

  /** A Facebook sign-out whose Unity Authentication sign-out throws: the token is gone, the state stays `Facebook`, the coins stay. */
  method FacebookSignOutFailureStaysFacebook() returns (state: LoginState, token: Outcomes.Option<string>, coins: Outcomes.Int32)
    ensures state == Facebook && token == Outcomes.None && coins == 1
  {
    var profile := new PlayerDataManager();
    var login := new LoginManager(profile);
    login.FacebookSignIn(Outcomes.Returned, true, "fb-token", Outcomes.Returned);
    profile.AddCoin();
    login.Logout(Outcomes.Returned, Outcomes.Threw, Outcomes.Returned);
    state, token, coins := login.currentLogin, login.facebookToken, profile.coinCounter;
  }

  /** A Facebook logout whose `FB.LogOut` throws keeps the token and the `Facebook` state and calls nothing else. */
  method FacebookLogOutThrowKeepsToken() returns (state: LoginState, token: Outcomes.Option<string>, sent: seq<Call>)
    ensures state == Facebook && token == Outcomes.Some("fb-token")
    ensures sent == [FacebookLogIn(FacebookPermissions, Outcomes.Returned),
                     AuthSignInWithFacebook("fb-token", Outcomes.Returned), PlayerSignedInFired,
                     FacebookLogOut(Outcomes.Threw)]
  {
    var profile := new PlayerDataManager();
    var login := new LoginManager(profile);
    login.FacebookSignIn(Outcomes.Returned, true, "fb-token", Outcomes.Returned);
    login.Logout(Outcomes.Threw, Outcomes.Returned, Outcomes.Returned);
    state, token, sent := login.currentLogin, login.facebookToken, login.calls;
  }

  /** Pressing Unity sign-in twice with the player account already signed in fires `PlayerSignedIn` twice. */
  method UnityReSignInFiresAgain() returns (state: LoginState, sent: seq<Call>)
    ensures state == Unity
    ensures sent == [AuthSignInWithUnity(Outcomes.Returned), PlayerSignedInFired,
                     AuthSignInWithUnity(Outcomes.Returned), PlayerSignedInFired]
    ensures Firings(sent) == 2
  {
    var profile := new PlayerDataManager();
    var login := new LoginManager(profile);
    login.StartUnitySignIn(true, Outcomes.Returned, Outcomes.Returned);
    login.StartUnitySignIn(true, Outcomes.Returned, Outcomes.Returned);
    state, sent := login.currentLogin, login.calls;
    AppendCall([], sent[0]);
    AppendCall(sent[..1], sent[1]);
    AppendCall(sent[..2], sent[2]);
    AppendCall(sent[..3], sent[3]);
    assert sent[..1] == [] + [sent[0]];
    assert sent[..2] == sent[..1] + [sent[1]];
    assert sent[..3] == sent[..2] + [sent[2]];
    assert sent == sent[..3] + [sent[3]];
  }

  /** Signing in with Facebook while signed in with Unity overwrites the state and calls no sign-out. */
  method SwitchProviderSkipsSignOut() returns (state: LoginState, sent: seq<Call>)
    ensures state == Facebook
    ensures sent == [AuthSignInWithUnity(Outcomes.Returned), PlayerSignedInFired,
                     FacebookLogIn(FacebookPermissions, Outcomes.Returned),
                     AuthSignInWithFacebook("fb-token", Outcomes.Returned), PlayerSignedInFired]
  {
    var profile := new PlayerDataManager();
    var login := new LoginManager(profile);
    login.StartUnitySignIn(true, Outcomes.Returned, Outcomes.Returned);
    login.FacebookSignIn(Outcomes.Returned, true, "fb-token", Outcomes.Returned);
    state, sent := login.currentLogin, login.calls;
  }

  /** A Unity logout resets the coins but keeps the player name that was loaded. */
  method LogoutKeepsPlayerName() returns (state: LoginState, name: Outcomes.Option<string>, coins: Outcomes.Int32)
    ensures state == None && name == Outcomes.Some("Player1") && coins == 0
  {
    var profile := new PlayerDataManager();
    var login := new LoginManager(profile);
    login.StartUnitySignIn(true, Outcomes.Returned, Outcomes.Returned);
    profile.InitializePlayer(Outcomes.Value(Outcomes.Some("Player1")), Outcomes.Value(5));
    login.Logout(Outcomes.Returned, Outcomes.Returned, Outcomes.Returned);
    state, name, coins := login.currentLogin, profile.playerName, profile.coinCounter;
  }

  /** A Facebook login whose token exchange fails stays signed out, yet keeps the Facebook token. */
  method FailedFacebookExchangeKeepsToken() returns (state: LoginState, token: Outcomes.Option<string>)
    ensures state == None && token == Outcomes.Some("fb-token")
  {
    var profile := new PlayerDataManager();
    var login := new LoginManager(profile);
    login.FacebookSignIn(Outcomes.Returned, true, "fb-token", Outcomes.Threw);
    state, token := login.currentLogin, login.facebookToken;
  }

  /** A cancelled Facebook login calls nothing after the login dialog and changes nothing. */
  method CancelledFacebookLogin() returns (state: LoginState, token: Outcomes.Option<string>, sent: seq<Call>)
    ensures state == None && token == Outcomes.None && sent == [FacebookLogIn(FacebookPermissions, Outcomes.Returned)]
  {
    var profile := new PlayerDataManager();
    var login := new LoginManager(profile);
    login.FacebookSignIn(Outcomes.Returned, false, "", Outcomes.Returned);
    state, token, sent := login.currentLogin, login.facebookToken, login.calls;
  }
}
