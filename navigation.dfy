/** The four routes of the root stack navigator and the screen-to-screen
    transitions the screens issue with `navigate` / `replace`. */
module Navigation {
  import opened Wrappers

  datatype Route = Login | Register | Form | List

  /** The navigator starts on the login screen. */
  const InitialRoute: Route := Login

  /** What a screen reacts to by changing route. */
  datatype NavEvent =
    | LoginSucceeded     // LoginScreen: profile loaded, replace('List')
    | OpenRegister       // LoginScreen: "create account" link, navigate('Register')
    | RegisterSucceeded  // RegisterScreen: profile written, replace('Login')
    | BackToLogin        // RegisterScreen: back arrow or "already have an account" link
    | OpenForm           // FeedbackList: "new feedback", navigate('Form')
    | SubmitSucceeded    // FeedbackForm: write accepted, replace('List')
    | SignedOut          // FeedbackList: signOut resolved, replace('Login')

  /** The route an event leads to from `r`, or None when the screen shown on
      `r` offers no such event. */
  function Step(r: Route, e: NavEvent): (next: Option<Route>)
  {
    match (r, e)
    case (Login, LoginSucceeded) => Some(List)
    case (Login, OpenRegister) => Some(Register)
    case (Register, RegisterSucceeded) => Some(Login)
    case (Register, BackToLogin) => Some(Login)
    case (List, OpenForm) => Some(Form)
    case (List, SignedOut) => Some(Login)
    case (Form, SubmitSucceeded) => Some(List)
    case _ => None
  }

  /** The route reached from the initial route by the events in order, or None
      when some event is not offered by the screen it arrives at. */
  function Run(events: seq<NavEvent>): Option<Route>
  {
    if events == [] then Some(InitialRoute)
    else
      match Run(events[..|events| - 1])
      case None => None
      case Some(r) => Step(r, events[|events| - 1])
  }

  /** The feedback list and the feedback form are only reachable through a
      successful login that no sign-out has undone since. */
  lemma {:induction false} SignedInRoutesNeedLogin(events: seq<NavEvent>)
    requires Run(events) == Some(List) || Run(events) == Some(Form)
    ensures exists k :: 0 <= k < |events| && events[k] == LoginSucceeded &&
                        forall j :: k < j < |events| ==> events[j] != SignedOut
  {
    var n := |events|;
    assert n > 0;
    var prefix := events[..n - 1];
    var last := events[n - 1];
    var r := Run(prefix).value;
    assert Step(r, last) == Run(events);
    if r == Login {
      assert last == LoginSucceeded;
    } else {
      assert (r == List && last == OpenForm) || (r == Form && last == SubmitSucceeded);
      SignedInRoutesNeedLogin(prefix);
      var k :| 0 <= k < |prefix| && prefix[k] == LoginSucceeded &&
               forall j :: k < j < |prefix| ==> prefix[j] != SignedOut;
      assert events[k] == LoginSucceeded;
    }
  }
}
