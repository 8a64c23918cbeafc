/** The login screen's view model. Its state is one `LoginUiState` value the
    methods replace. `login` and `adminLogin` start a coroutine: its first
    update runs at once, and its second, after the simulated delay, is the
    separate step `Resume`. */
module Login {
  import opened Text

  datatype LoginUiState = LoginUiState(
    username: string,
    password: string,
    isAdminMode: bool,
    isLoading: bool,
    isLoginSuccessful: bool,
    errorMessage: Option<string>)

  const InitialState: LoginUiState := LoginUiState("", "", false, false, false, None)

  /** The demo accounts: user name to password. */
  const ValidCredentials: map<string, string> :=
    map["admin" := "admin", "user" := "password", "demo" := "demo", "test" := "test123"]

  /** `validateCredentials`: the user name lower-cased then trimmed, the
      password trimmed, looked up in the demo accounts. */
  function ValidateCredentials(username: string, password: string): bool {
    var key := Trim(Lowercase(username));
    key in ValidCredentials && ValidCredentials[key] == Trim(password)
  }

  /** The accounts the check accepts, listed. */
  lemma ValidateCredentialsAccepts(username: string, password: string)
    ensures var u, p := Trim(Lowercase(username)), Trim(password);
      ValidateCredentials(username, password) <==>
        || (u == "admin" && p == "admin")
        || (u == "user" && p == "password")
        || (u == "demo" && p == "demo")
        || (u == "test" && p == "test123")
  {
  }

  lemma LowercaseIdempotent(s: string)
    ensures Lowercase(Lowercase(s)) == Lowercase(s)
  {
  }

  lemma LowercaseOfTrimmed(s: string)
    ensures IsTrimmed(s) ==> IsTrimmed(Lowercase(s))
  {
  }

  /** Case in the user name and white space at the ends of either field make
      no difference: normalising them first gives the same answer. */
  lemma ValidateCredentialsNormalises(username: string, password: string)
    ensures ValidateCredentials(username, password) ==
            ValidateCredentials(Trim(Lowercase(username)), Trim(password))
  {
    var u := Trim(Lowercase(username));
    LowercaseIdempotent(username);
    LowercaseOfLower(Lowercase(username), u);
    TrimOfTrimmed(Lowercase(u));
    TrimOfTrimmed(Trim(password));
  }

  /** Lower-casing a trimmed piece of a lower-case string changes nothing. */
  lemma LowercaseOfLower(s: string, t: string)
    requires Lowercase(s) == s && t == Trim(s)
    ensures Lowercase(t) == t
  {
    forall i | 0 <= i < |t| ensures LowerChar(t[i]) == t[i] {
      TrimIndex(s, i);
    }
  }

  /** Each character of the trimmed string is one of the original's. */
  lemma TrimIndex(s: string, i: nat)
    requires i < |Trim(s)|
    ensures exists j :: 0 <= j < |s| && s[j] == Trim(s)[i]
  {
    TrimKeepsChars(s, Trim(s)[i]);
  }

  /** What the coroutine started by `login` or `adminLogin` still has to do. */
  datatype Pending =
    | Idle
    | LoginInFlight(username: string, password: string)
    | AdminLoginInFlight

  class LoginViewModel {
    var uiState: LoginUiState
    var pending: Pending

    /** A coroutine is in flight exactly while the state says loading, and
        loading never shows an error. */
    ghost predicate Valid()
      reads this
    {
      && (uiState.isLoading <==> !pending.Idle?)
      && (uiState.isLoading ==> uiState.errorMessage.None?)
      && (pending.AdminLoginInFlight? ==> uiState.isAdminMode)
      && (pending.LoginInFlight? ==> !uiState.isAdminMode)
    }

    constructor()
      ensures Valid() && uiState == InitialState && pending == Idle
    {
      uiState := InitialState;
      pending := Idle;
    }

    /** `updateUsername`: the field set and the error cleared. */
    method UpdateUsername(username: string)
      requires Valid()
      modifies this
      ensures Valid()
      ensures uiState == old(uiState).(username := username, errorMessage := None)
      ensures pending == old(pending)
    {
      uiState := uiState.(username := username, errorMessage := None);
    }

    /** `updatePassword`: the field set and the error cleared. */
    method UpdatePassword(password: string)
      requires Valid()
      modifies this
      ensures Valid()
      ensures uiState == old(uiState).(password := password, errorMessage := None)
      ensures pending == old(pending)
    {
      uiState := uiState.(password := password, errorMessage := None);
    }

    /** `login` up to its first suspension: ignored while loading; a blank
        user name, then a blank password, is reported without loading;
        otherwise loading starts with the credentials of this moment. */
    method Login()
      requires Valid()
      modifies this
      ensures Valid()
      ensures old(uiState).isLoading ==> uiState == old(uiState) && pending == old(pending)
      ensures !old(uiState).isLoading && IsBlank(old(uiState).username) ==>
        uiState == old(uiState).(errorMessage := Some("Username is required")) && pending == Idle
      ensures !old(uiState).isLoading && !IsBlank(old(uiState).username) && IsBlank(old(uiState).password) ==>
        uiState == old(uiState).(errorMessage := Some("Password is required")) && pending == Idle
      ensures !old(uiState).isLoading && !IsBlank(old(uiState).username) && !IsBlank(old(uiState).password) ==>
        && uiState == old(uiState).(isLoading := true, errorMessage := None, isAdminMode := false)
        && pending == LoginInFlight(old(uiState).username, old(uiState).password)
    {
      if uiState.isLoading {
        return;
      }
      var currentState := uiState;
      if IsBlank(currentState.username) {
        uiState := currentState.(errorMessage := Some("Username is required"));
        return;
      }
      if IsBlank(currentState.password) {
        uiState := currentState.(errorMessage := Some("Password is required"));
        return;
      }
      uiState := currentState.(isLoading := true, errorMessage := None, isAdminMode := false);
      pending := LoginInFlight(currentState.username, currentState.password);
    }

    /** `adminLogin` up to its first suspension: the preset credentials are
        filled in and loading starts, unless already loading. */
    method AdminLogin()
      requires Valid()
      modifies this
      ensures Valid()
      ensures old(uiState).isLoading ==> uiState == old(uiState) && pending == old(pending)
      ensures !old(uiState).isLoading ==>
        && uiState == old(uiState).(isLoading := true, errorMessage := None, isAdminMode := true,
                                    username := "admin", password := "admin")
        && pending == AdminLoginInFlight
    {
      if uiState.isLoading {
        return;
      }
      uiState := uiState.(isLoading := true, errorMessage := None, isAdminMode := true,
                          username := "admin", password := "admin");
      pending := AdminLoginInFlight;
    }

    /** The rest of the coroutine in flight, once its delay is over. A user
        login succeeds exactly when the credentials captured at `login`
        pass `validateCredentials`, whatever the fields hold now; the
        admin login always succeeds. */
    method Resume()
      requires Valid()
      modifies this
      ensures Valid() && pending == Idle && !uiState.isLoading
      ensures old(pending).Idle? ==> uiState == old(uiState)
      ensures old(pending).LoginInFlight? ==>
        var ok := ValidateCredentials(old(pending).username, old(pending).password);
        uiState == old(uiState).(isLoading := false, isLoginSuccessful := ok,
                                 errorMessage := if ok then None else Some("Invalid login credentials"))
      ensures old(pending).AdminLoginInFlight? ==>
        uiState == old(uiState).(isLoading := false, isLoginSuccessful := true, errorMessage := None)
    {
      match pending {
        case Idle =>
        case LoginInFlight(username, password) =>
          var isValidLogin := ValidateCredentials(username, password);
          uiState := uiState.(isLoading := false, isLoginSuccessful := isValidLogin,
                              errorMessage := if !isValidLogin then Some("Invalid login credentials") else None);
        case AdminLoginInFlight =>
          uiState := uiState.(isLoading := false, isLoginSuccessful := true, errorMessage := None);
      }
      pending := Idle;
    }

    /** `clearError`: only the error changes. */
    method ClearError()
      requires Valid()
      modifies this
      ensures Valid()
      ensures uiState == old(uiState).(errorMessage := None) && pending == old(pending)
    {
      uiState := uiState.(errorMessage := None);
    }

    /** `resetLoginState`: success and error cleared, the fields kept. */
    method ResetLoginState()
      requires Valid()
      modifies this
      ensures Valid()
      ensures uiState == old(uiState).(isLoginSuccessful := false, errorMessage := None)
      ensures pending == old(pending)
    {
      uiState := uiState.(isLoginSuccessful := false, errorMessage := None);
    }
  }

  /** Logging in twice with the same wrong credentials ends both times in the
      same state: not loading, not logged in, not in admin mode, with the
      same error, and the fields as they were. */
  method RepeatFailingLogin(vm: LoginViewModel)
    requires vm.Valid() && !vm.uiState.isLoading
    requires !IsBlank(vm.uiState.username) && !IsBlank(vm.uiState.password)
    requires !ValidateCredentials(vm.uiState.username, vm.uiState.password)
    modifies vm
    ensures vm.Valid()
    ensures vm.uiState == old(vm.uiState).(isLoginSuccessful := false, isAdminMode := false,
                                           errorMessage := Some("Invalid login credentials"))
  {
    vm.Login();
    vm.Resume();
    var first := vm.uiState;
    vm.Login();
    vm.Resume();
    assert vm.uiState == first;
  }
}
