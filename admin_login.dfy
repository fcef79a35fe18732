/**
 * The login page of `src/auth/AdminLogin.jsx`: it hands the typed key to the
 * session gate and, on success, calls the `onLogin` callback and navigates to
 * the dashboard; on failure it shows an error message.
 */
module AdminLogin {
  import Auth
  import App

  const InvalidKeyMessage: string := "Invalid Admin Key"

  /** The externally visible effects of one login click, in the order they happen. */
  datatype Effect = OnLoginCalled | NavigatedTo(path: string)

  /** The page's state: the typed key and the error message. */
  class LoginForm {
    var key: string
    var error: string

    constructor ()
      ensures key == "" && error == ""
    {
      key := "";
      error := "";
    }

    /** The message box is rendered only for a non-empty (truthy) `error`. */
    predicate ErrorShown(): (shown: bool)
      reads this
      ensures !shown <==> error == ""
      ensures error == InvalidKeyMessage ==> shown
    {
      error != ""
    }

    /** The input's `onChange`: the typed text becomes `key`. */
    method SetKey(typed: string)
      modifies this`key
      ensures key == typed
    {
      key := typed;
    }

    /**
     * `handleLogin`: `ok` is what `loginAdmin` returned; the `onLogin`
     * callback is `App`'s `setAuthenticated(true)`, so it is modelled by
     * calling `app.OnLogin()`.
     */
    method HandleLogin(storage: Auth.LocalStorage, app: App.AppState) returns (ok: bool, effects: seq<Effect>)
      requires app.mounted
      modifies storage, app`authenticated, this`error
      ensures Auth.LoginResult(ok, storage.items) == Auth.AfterLogin(old(storage.items), key)
      ensures ok <==> key == Auth.AdminKey
      ensures effects == if ok then [OnLoginCalled, NavigatedTo(App.DashboardPath)] else []
      ensures ok ==> app.authenticated && error == old(error)
      ensures ok ==> App.SelectRoute(app.authenticated, App.DashboardPath) == App.Render(App.Protected(App.DashboardPage))
      ensures !ok ==> error == InvalidKeyMessage && ErrorShown()
      ensures !ok ==> app.authenticated == old(app.authenticated)
      ensures !ok ==> storage.items == old(storage.items)
    {
      ok := Auth.LoginAdmin(storage, key);
      if ok {
        app.OnLogin();
        effects := [OnLoginCalled, NavigatedTo(App.DashboardPath)];
        App.ProtectedPagesRendered();
        assert App.ProtectedRoutes[0] == (App.DashboardPath, App.DashboardPage);
      } else {
        error := InvalidKeyMessage;
        effects := [];
      }
    }
  }

  /**
   * A wrong key leaves no session and shows the error; the right key then
   * opens the session and the dashboard renders.
   */
  method WrongThenRightKey(wrong: string)
    requires wrong != Auth.AdminKey
  {
    var storage := new Auth.LocalStorage(map[]);
    var app := new App.AppState();
    app.MountEffect(storage);
    var form := new LoginForm();

    form.SetKey(wrong);
    var ok, effects := form.HandleLogin(storage, app);
    assert !ok && effects == [] && form.ErrorShown() && !Auth.IsAuthenticated(storage);
    assert !app.authenticated;

    form.SetKey(Auth.AdminKey);
    ok, effects := form.HandleLogin(storage, app);
    assert ok && effects == [OnLoginCalled, NavigatedTo(App.DashboardPath)];
    assert Auth.IsAuthenticated(storage);
  }

  /**
   * A page load finds a persisted session; after the top bar's logout the
   * next page load is sent back to the login page.
   */
  method ReloadThenLogout(storage: Auth.LocalStorage, path: string)
    requires Auth.IsAuthenticated(storage)
    modifies storage
  {
    var reloaded := new App.AppState();
    reloaded.MountEffect(storage);
    assert reloaded.authenticated;

    Auth.Logout(storage);
    var afterLogout := new App.AppState();
    afterLogout.MountEffect(storage);
    assert !afterLogout.authenticated;
    assert App.NormalizePath(path) != App.LoginPath ==> App.SelectRoute(afterLogout.authenticated, path) == App.Redirect(App.LoginPath);
  }
}
