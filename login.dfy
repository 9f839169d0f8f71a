/** The login form: its own failure flag, and the session, storage and
    visibility it updates on the root component. */
module LoginComponent {
  import opened Wrappers
  import opened State
  import opened AppComponent

  class Login {
    /** The root component whose setters and storage the form was given. */
    const app: App
    var error: bool

    constructor (app: App)
      ensures this.app == app && !error
    {
      this.app := app;
      error := false;
    }

    /** `handleSubmit` once the server has answered `response`: on success
        the name is stored, then made the session, then the form closes and
        the failure flag clears; on failure only the flag is raised. */
    method HandleSubmit(response: Result<string>)
      modifies this, app
      ensures app.Model() == LoginSubmit(old(app.Model()), response)
      ensures error <==> response.Err?
    {
      match response {
        case Ok(username) =>
          app.stored := app.stored[UserKey := username];
          app.currentUser := Some(username);
          app.showLogin := false;
          error := false;
        case Err(_) =>
          error := true;
      }
    }

    /** The cancel icon. */
    method Cancel()
      modifies app
      ensures app.Model() == CancelLogin(old(app.Model()))
    {
      app.showLogin := false;
    }
  }
}
