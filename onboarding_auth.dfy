/**
 * The sign-in step of onboarding: choosing between ChatGPT login and an API
 * key, typing or pasting the key, and the guards a forced login method puts
 * on both. The environment's key, the outcome of saving a key and the way a
 * browser login starts are parameters; the screen itself is not modelled.
 */
module OnboardingAuth {
  import opened Wrappers
  import opened Text

  datatype AuthMode = ApiKey | Chatgpt | ChatgptAuthTokens

  datatype ForcedLoginMethod = ForceChatgpt | ForceApi

  datatype LoginStatus = NotAuthenticated | Authenticated(mode: AuthMode)

  /** The key typed so far, and whether it was filled in from the environment. */
  datatype ApiKeyInput = ApiKeyInput(value: string, prepopulatedFromEnv: bool)

  datatype SignInState =
    | PickMode
    | ChatGptContinueInBrowser(authUrl: string)
    | ChatGptDeviceCode
    | ChatGptSuccessMessage
    | ChatGptSuccess
    | ApiKeyEntry(input: ApiKeyInput)
    | ApiKeyConfigured

  /** The messages the step can show, before translation. */
  datatype AuthError =
    | ApiKeyDisabled
    | EmptyApiKey
    | SaveFailed(reason: string)
    | LoginServerFailed(reason: string)

  datatype StepState = InProgress | Complete

  /** How starting a browser login went: a headless terminal, a login server running, or a server that failed. */
  datatype LoginLaunch = Headless | ServerStarted | ServerFailed(reason: string)

  datatype KeyCode = Char(c: char) | Up | Down | Enter | Esc | Backspace | OtherKey

  datatype KeyEventKind = Press | Repeat | Release

  datatype KeyEvent = KeyEvent(code: KeyCode, control: bool, alt: bool, super: bool, kind: KeyEventKind)

  /** Whether a key press types a character into the key field. */
  predicate TypesChar(key: KeyEvent) {
    key.code.Char? && key.kind == Press && !key.super && !key.control && !key.alt
  }

  /** The step is complete exactly once a login has succeeded. */
  function StepStateOf(state: SignInState): (r: StepState)
    ensures r == Complete <==> state == ChatGptSuccess || state == ApiKeyConfigured
  {
    match state
    case ChatGptSuccess => Complete
    case ApiKeyConfigured => Complete
    case _ => InProgress
  }

  /** The key field after a typed character: a prefilled key is replaced, otherwise the character is appended. */
  function TypeInto(input: ApiKeyInput, c: char): (r: ApiKeyInput)
    ensures !r.prepopulatedFromEnv
    ensures r.value == (if input.prepopulatedFromEnv then [c] else input.value + [c])
  {
    ApiKeyInput((if input.prepopulatedFromEnv then [] else input.value) + [c], false)
  }

  /** The key field after Backspace: a prefilled key is discarded whole, otherwise the last character goes. */
  function EraseFrom(input: ApiKeyInput): (r: ApiKeyInput)
    ensures !r.prepopulatedFromEnv
    ensures input.prepopulatedFromEnv ==> r.value == []
    ensures !input.prepopulatedFromEnv ==> r.value + (if input.value == [] then [] else [input.value[|input.value| - 1]]) == input.value
  {
    if input.prepopulatedFromEnv then ApiKeyInput([], false)
    else if input.value == [] then input
    else ApiKeyInput(input.value[..|input.value| - 1], false)
  }

  /** The key field after a paste of non-blank text: it replaces a prefilled key and is appended otherwise. */
  function PasteInto(input: ApiKeyInput, pasted: string): (r: ApiKeyInput)
    requires Trim(pasted) != []
    ensures !r.prepopulatedFromEnv
    ensures r.value == (if input.prepopulatedFromEnv then Trim(pasted) else input.value + Trim(pasted))
  {
    if input.prepopulatedFromEnv then ApiKeyInput(Trim(pasted), false)
    else ApiKeyInput(input.value + Trim(pasted), false)
  }

  /** Typing after Backspace on a prefilled key leaves just what was typed, whatever the environment supplied. */
  lemma PrefillDiscardedWhole(prefill: string, c: char)
    ensures TypeInto(EraseFrom(ApiKeyInput(prefill, true)), c) == ApiKeyInput([c], false)
    ensures TypeInto(ApiKeyInput(prefill, true), c) == ApiKeyInput([c], false)
  {
  }

  /** Typing a character and erasing it again gives back a typed (not prefilled) key. */
  lemma EraseUndoesType(input: ApiKeyInput, c: char)
    requires !input.prepopulatedFromEnv
    ensures EraseFrom(TypeInto(input, c)) == input
  {
    assert (input.value + [c])[..|input.value|] == input.value;
  }

  class AuthModeWidget {
    var highlightedMode: AuthMode
    var error: Option<AuthError>
    var signInState: SignInState
    var loginStatus: LoginStatus
    const forcedLoginMethod: Option<ForcedLoginMethod>

    predicate IsApiLoginAllowed()
      reads this
    {
      forcedLoginMethod != Some(ForceChatgpt)
    }

    predicate IsChatgptLoginAllowed()
      reads this
    {
      forcedLoginMethod != Some(ForceApi)
    }

    /** With ChatGPT login forced, the API-key states are never reached. */
    predicate Valid()
      reads this
    {
      !IsApiLoginAllowed() ==> !signInState.ApiKeyEntry? && signInState != ApiKeyConfigured
    }

    function GetStepState(): StepState
      reads this
    {
      StepStateOf(signInState)
    }

    /** The API-key flow was refused: back to choosing, ChatGPT highlighted, with an explanation. */
    twostate predicate ApiLoginDisallowed()
      reads this
    {
      highlightedMode == Chatgpt && error == Some(ApiKeyDisabled) && signInState == PickMode
      && loginStatus == old(loginStatus)
    }

    /** The key field was opened (prefilled from the environment when empty), or refused. */
    twostate predicate ApiKeyEntryStarted(envKey: Option<string>)
      reads this
    {
      && (!IsApiLoginAllowed() ==> ApiLoginDisallowed())
      && (IsApiLoginAllowed() ==>
            error == None && highlightedMode == old(highlightedMode) && loginStatus == old(loginStatus)
            && signInState ==
              match old(signInState)
              case ApiKeyEntry(input) =>
                if input.value != [] then ApiKeyEntry(input)
                else ApiKeyEntry(ApiKeyInput(envKey.UnwrapOr([]), envKey.Some?))
              case _ => ApiKeyEntry(ApiKeyInput(envKey.UnwrapOr([]), envKey.Some?)))
    }

    /**
     * A ChatGPT login was started: already signed in with ChatGPT goes
     * straight to success; a login server that fails to start shows its error
     * and returns to choosing; otherwise the state stays as it was.
     */
    twostate predicate ChatgptLoginStarted(launch: LoginLaunch)
      reads this
    {
      && loginStatus == old(loginStatus) && highlightedMode == old(highlightedMode)
      && (old(loginStatus) == Authenticated(Chatgpt) ==> signInState == ChatGptSuccess && error == old(error))
      && (old(loginStatus) != Authenticated(Chatgpt) ==>
            match launch
            case ServerFailed(reason) => signInState == PickMode && error == Some(LoginServerFailed(reason))
            case _ => signInState == old(signInState) && error == None)
    }

    /**
     * A key while the key field is open: Esc abandons it, Enter saves the
     * trimmed key (a blank one shows the empty-key error, a failed save
     * keeps the key in the field with the error), Backspace and typed
     * characters edit it, and any other key changes nothing.
     */
    twostate predicate ApiKeyEntryKeyHandled(key: KeyEvent, saveFailure: Option<string>)
      requires old(signInState).ApiKeyEntry?
      reads this
    {
      var input := old(signInState).input;
      && highlightedMode == old(highlightedMode)
      && (key.code == Esc ==> signInState == PickMode && error == None && loginStatus == old(loginStatus))
      && (key.code == Enter && IsBlank(input.value) ==>
            signInState == old(signInState) && error == Some(EmptyApiKey) && loginStatus == old(loginStatus))
      && (key.code == Enter && !IsBlank(input.value) && saveFailure.None? ==>
            signInState == ApiKeyConfigured && loginStatus == Authenticated(ApiKey) && error == None)
      && (key.code == Enter && !IsBlank(input.value) && saveFailure.Some? ==>
            signInState == ApiKeyEntry(ApiKeyInput(input.value, false))
            && error == Some(SaveFailed(saveFailure.value)) && loginStatus == old(loginStatus))
      && (key.code == Backspace ==>
            signInState == ApiKeyEntry(EraseFrom(input)) && error == None && loginStatus == old(loginStatus))
      && (TypesChar(key) ==>
            signInState == ApiKeyEntry(TypeInto(input, key.code.c)) && error == None && loginStatus == old(loginStatus))
      && (key.code != Esc && key.code != Enter && key.code != Backspace && !TypesChar(key) ==>
            signInState == old(signInState) && error == old(error) && loginStatus == old(loginStatus))
    }

    constructor(forcedLoginMethod: Option<ForcedLoginMethod>, loginStatus: LoginStatus)
      ensures this.forcedLoginMethod == forcedLoginMethod && this.loginStatus == loginStatus
      ensures signInState == PickMode && error == None && highlightedMode == Chatgpt
      ensures Valid()
    {
      this.forcedLoginMethod := forcedLoginMethod;
      this.loginStatus := loginStatus;
      signInState := PickMode;
      error := None;
      highlightedMode := Chatgpt;
    }

    /** Refuses the API-key flow: back to choosing, ChatGPT highlighted, with an explanation. */
    method DisallowApiLogin()
      modifies this
      ensures ApiLoginDisallowed()
      ensures Valid()
    {
      highlightedMode := Chatgpt;
      error := Some(ApiKeyDisabled);
      signInState := PickMode;
    }

    /**
     * Opens the key field, prefilled from the environment when it is empty;
     * refused when ChatGPT login is forced.
     */
    method StartApiKeyEntry(envKey: Option<string>)
      requires Valid()
      modifies this
      ensures Valid()
      ensures ApiKeyEntryStarted(envKey)
    {
      if !IsApiLoginAllowed() {
        DisallowApiLogin();
        return;
      }
      error := None;
      match signInState {
        case ApiKeyEntry(input) =>
          if input.value == [] {
            match envKey {
              case Some(prefill) =>
                signInState := ApiKeyEntry(ApiKeyInput(prefill, true));
              case None =>
                signInState := ApiKeyEntry(ApiKeyInput(input.value, false));
            }
          }
        case _ =>
          signInState := ApiKeyEntry(ApiKeyInput(envKey.UnwrapOr([]), envKey.Some?));
      }
    }

    /**
     * Stores the key. `saveFailure` is the storage error, if any: success
     * configures the key; failure keeps the key in the field with the
     * error shown. Refused when ChatGPT login is forced.
     */
    method SaveApiKey(apiKey: string, saveFailure: Option<string>)
      requires Valid()
      modifies this
      ensures Valid()
      ensures !IsApiLoginAllowed() ==>
        error == Some(ApiKeyDisabled) && signInState == PickMode && loginStatus == old(loginStatus)
      ensures IsApiLoginAllowed() ==> highlightedMode == old(highlightedMode)
      ensures IsApiLoginAllowed() && saveFailure.None? ==>
        error == None && loginStatus == Authenticated(ApiKey) && signInState == ApiKeyConfigured
      ensures IsApiLoginAllowed() && saveFailure.Some? ==>
        error == Some(SaveFailed(saveFailure.value)) && loginStatus == old(loginStatus)
        && signInState ==
          match old(signInState)
          case ApiKeyEntry(input) => ApiKeyEntry(ApiKeyInput(if input.value == [] then apiKey else input.value, false))
          case _ => ApiKeyEntry(ApiKeyInput(apiKey, false))
    {
      if !IsApiLoginAllowed() {
        DisallowApiLogin();
        return;
      }
      match saveFailure {
        case None =>
          error := None;
          loginStatus := Authenticated(ApiKey);
          signInState := ApiKeyConfigured;
        case Some(reason) =>
          error := Some(SaveFailed(reason));
          match signInState {
            case ApiKeyEntry(input) =>
              signInState := ApiKeyEntry(ApiKeyInput(if input.value == [] then apiKey else input.value, false));
            case _ =>
              signInState := ApiKeyEntry(ApiKeyInput(apiKey, false));
          }
      }
    }

    /**
     * Keys while the key field is open; the result says whether the field
     * took the key (it takes every key while open).
     */
    method HandleApiKeyEntryKey(key: KeyEvent, saveFailure: Option<string>) returns (handled: bool)
      requires Valid()
      modifies this
      ensures Valid()
      ensures handled <==> old(signInState).ApiKeyEntry?
      ensures !handled ==> unchanged(this)
      ensures handled ==> ApiKeyEntryKeyHandled(key, saveFailure)
      ensures handled && key.code == Esc ==> signInState == PickMode && error == None
      ensures handled && key.code == Enter && IsBlank(old(signInState).input.value) ==>
        signInState == old(signInState) && error == Some(EmptyApiKey)
      ensures handled && key.code == Backspace ==>
        signInState == ApiKeyEntry(EraseFrom(old(signInState).input)) && error == None
      ensures handled && TypesChar(key) ==>
        signInState == ApiKeyEntry(TypeInto(old(signInState).input, key.code.c)) && error == None
      ensures signInState == ApiKeyConfigured && old(signInState) != ApiKeyConfigured ==>
        loginStatus == Authenticated(ApiKey)
      ensures handled && key.code == Enter && !IsBlank(old(signInState).input.value) && saveFailure.None? ==>
        signInState == ApiKeyConfigured && loginStatus == Authenticated(ApiKey) && error == None
    {
      if !signInState.ApiKeyEntry? {
        return false;
      }
      var input := signInState.input;
      handled := true;
      if key.code == Esc {
        signInState := PickMode;
        error := None;
      } else if key.code == Enter {
        var trimmed := Trim(input.value);
        if trimmed == [] {
          error := Some(EmptyApiKey);
        } else {
          SaveApiKey(trimmed, saveFailure);
        }
      } else if key.code == Backspace {
        signInState := ApiKeyEntry(EraseFrom(input));
        error := None;
      } else if TypesChar(key) {
        signInState := ApiKeyEntry(TypeInto(input, key.code.c));
        error := None;
      }
    }

    /** A paste goes into the open key field; blank pastes and pastes elsewhere are ignored. */
    method HandleApiKeyEntryPaste(pasted: string) returns (taken: bool)
      requires Valid()
      modifies this
      ensures Valid()
      ensures taken <==> !IsBlank(pasted) && old(signInState).ApiKeyEntry?
      ensures !taken ==> unchanged(this)
      ensures taken ==> signInState == ApiKeyEntry(PasteInto(old(signInState).input, pasted)) && error == None
      ensures loginStatus == old(loginStatus) && highlightedMode == old(highlightedMode)
    {
      var trimmed := Trim(pasted);
      if trimmed == [] {
        return false;
      }
      if !signInState.ApiKeyEntry? {
        return false;
      }
      signInState := ApiKeyEntry(PasteInto(signInState.input, pasted));
      error := None;
      taken := true;
    }

    /**
     * Starts a ChatGPT login: already signed in with ChatGPT goes straight to
     * success; a headless terminal hands over to the device-code flow; a
     * login server that fails to start shows its error.
     */
    method StartChatgptLogin(launch: LoginLaunch)
      requires Valid()
      modifies this
      ensures Valid()
      ensures ChatgptLoginStarted(launch)
    {
      if loginStatus == Authenticated(Chatgpt) {
        signInState := ChatGptSuccess;
        return;
      }
      error := None;
      match launch {
        case Headless =>
        case ServerStarted =>
        case ServerFailed(reason) =>
          signInState := PickMode;
          error := Some(LoginServerFailed(reason));
      }
    }

    /** The running login server has opened the browser at `authUrl`. */
    method BrowserLoginOpened(authUrl: string)
      requires Valid()
      modifies this
      ensures Valid()
      ensures signInState == ChatGptContinueInBrowser(authUrl)
      ensures error == old(error) && loginStatus == old(loginStatus) && highlightedMode == old(highlightedMode)
    {
      signInState := ChatGptContinueInBrowser(authUrl);
    }

    /** The login server has finished: success shows the success message, anything else returns to choosing. */
    method BrowserLoginFinished(succeeded: bool)
      requires Valid()
      modifies this
      ensures Valid()
      ensures signInState == if succeeded then ChatGptSuccessMessage else PickMode
      ensures error == old(error) && loginStatus == old(loginStatus) && highlightedMode == old(highlightedMode)
    {
      signInState := if succeeded then ChatGptSuccessMessage else PickMode;
    }

    /**
     * A key press. The open key field takes every key first; otherwise the
     * arrows (or k and j) move the highlight, 1 and 2 pick a method, Enter
     * confirms the highlighted one or leaves the success message, and Esc
     * abandons a browser or device-code login.
     */
    method HandleKey(key: KeyEvent, envKey: Option<string>, saveFailure: Option<string>, launch: LoginLaunch)
      requires Valid()
      modifies this
      ensures Valid()
      ensures old(signInState) == ChatGptSuccessMessage && key.code == Enter ==> signInState == ChatGptSuccess
      ensures signInState == ApiKeyConfigured && old(signInState) != ApiKeyConfigured ==>
        loginStatus == Authenticated(ApiKey)
      ensures !IsApiLoginAllowed() ==> loginStatus == old(loginStatus)
      ensures old(signInState).ApiKeyEntry? ==> ApiKeyEntryKeyHandled(key, saveFailure)
      ensures !old(signInState).ApiKeyEntry? ==>
        var c := key.code;
        var rest := error == old(error) && loginStatus == old(loginStatus);
        && (c == Up || c == Char('k') ==>
              highlightedMode == (if IsChatgptLoginAllowed() then Chatgpt else old(highlightedMode))
              && signInState == old(signInState) && rest)
        && (c == Down || c == Char('j') ==>
              highlightedMode == (if IsApiLoginAllowed() then ApiKey else old(highlightedMode))
              && signInState == old(signInState) && rest)
        && (c == Char('1') ==> if IsChatgptLoginAllowed() then ChatgptLoginStarted(launch) else unchanged(this))
        && (c == Char('2') ==> if IsApiLoginAllowed() then ApiKeyEntryStarted(envKey) else ApiLoginDisallowed())
        && (c == Enter && old(signInState) == PickMode && old(highlightedMode) != ApiKey ==>
              if IsChatgptLoginAllowed() then ChatgptLoginStarted(launch) else unchanged(this))
        && (c == Enter && old(signInState) == PickMode && old(highlightedMode) == ApiKey ==>
              if IsApiLoginAllowed() then ApiKeyEntryStarted(envKey) else ApiLoginDisallowed())
        && (c == Enter && old(signInState) == ChatGptSuccessMessage ==>
              signInState == ChatGptSuccess && highlightedMode == old(highlightedMode) && rest)
        && (c == Enter && old(signInState) != PickMode && old(signInState) != ChatGptSuccessMessage ==> unchanged(this))
        && (c == Esc && (old(signInState).ChatGptContinueInBrowser? || old(signInState) == ChatGptDeviceCode) ==>
              signInState == PickMode && highlightedMode == old(highlightedMode) && rest)
        && (c == Esc && !old(signInState).ChatGptContinueInBrowser? && old(signInState) != ChatGptDeviceCode ==>
              unchanged(this))
        && (c.Backspace? || c.OtherKey? || (c.Char? && c.c !in "kj12") ==> unchanged(this))
    {
      var handled := HandleApiKeyEntryKey(key, saveFailure);
      if handled {
        return;
      }
      match key.code {
        case Up =>
          if IsChatgptLoginAllowed() {
            highlightedMode := Chatgpt;
          }
        case Down =>
          if IsApiLoginAllowed() {
            highlightedMode := ApiKey;
          }
        case Char(c) =>
          if c == 'k' {
            if IsChatgptLoginAllowed() {
              highlightedMode := Chatgpt;
            }
          } else if c == 'j' {
            if IsApiLoginAllowed() {
              highlightedMode := ApiKey;
            }
          } else if c == '1' {
            if IsChatgptLoginAllowed() {
              StartChatgptLogin(launch);
            }
          } else if c == '2' {
            if IsApiLoginAllowed() {
              StartApiKeyEntry(envKey);
            } else {
              DisallowApiLogin();
            }
          }
        case Enter =>
          if signInState == PickMode {
            if highlightedMode != ApiKey {
              if IsChatgptLoginAllowed() {
                StartChatgptLogin(launch);
              }
            } else if IsApiLoginAllowed() {
              StartApiKeyEntry(envKey);
            } else {
              DisallowApiLogin();
            }
          } else if signInState == ChatGptSuccessMessage {
            signInState := ChatGptSuccess;
          }
        case Esc =>
          if signInState.ChatGptContinueInBrowser? || signInState == ChatGptDeviceCode {
            signInState := PickMode;
          }
        case _ =>
      }
    }

    method HandlePaste(pasted: string)
      requires Valid()
      modifies this
      ensures Valid()
      ensures !IsBlank(pasted) && old(signInState).ApiKeyEntry? ==>
        signInState == ApiKeyEntry(PasteInto(old(signInState).input, pasted))
      ensures IsBlank(pasted) || !old(signInState).ApiKeyEntry? ==> unchanged(this)
    {
      var _ := HandleApiKeyEntryPaste(pasted);
    }
  }
}
