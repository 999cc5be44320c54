/**
 * The login dialog (components/LoginModal.tsx): two fields, an error line and a
 * fixed credential check. On success it calls App's onLogin handler.
 */
module Login {
  import opened Types
  import Site

  const AdminUser: string := "admin"
  const AdminPassword: string := "admin123"
  const Hint: string := "Invalid credentials. Try admin/admin123"

  /** The hard-coded check: both fields must equal the fixed pair exactly. */
  predicate Accepts(username: string, password: string)
  {
    username == AdminUser && password == AdminPassword
  }

  class LoginModal {
    var username: string
    var password: string
    var error: string

    constructor ()
      ensures username == "" && password == "" && error == ""
    {
      username, password, error := "", "", "";
    }

    method SetUsername(s: string)
      modifies this`username
      ensures username == s
    {
      username := s;
    }

    method SetPassword(s: string)
      modifies this`password
      ensures password == s
    {
      password := s;
    }

    /**
     * Submitting the form, which is on screen only while App has the dialog open.
     * Accepted credentials log the admin in through App and clear the dialog;
     * anything else shows the hint and keeps what was typed, and App is untouched.
     */
    method Submit(app: Site.App) returns (loggedIn: bool)
      requires app.Valid() && app.isLoginOpen
      modifies this, app`isAuthenticated, app`isLoginOpen, app`view
      ensures app.Valid()
      ensures loggedIn <==> old(username) == "admin" && old(password) == "admin123"
      ensures loggedIn ==> error == "" && username == "" && password == ""
      ensures loggedIn ==> app.isAuthenticated && !app.isLoginOpen && app.view == ADMIN
      ensures !loggedIn ==> error == Hint && username == old(username) && password == old(password)
      ensures !loggedIn ==> app.isAuthenticated == old(app.isAuthenticated) && app.isLoginOpen
                            && app.view == old(app.view)
    {
      if Accepts(username, password) {
        app.LoginSuccess();
        error := "";
        username := "";
        password := "";
        return true;
      }
      error := Hint;
      return false;
    }
  }
}
