/** Screen selection in frontend/src/App.jsx. */
module App {
  import opened Common
  import opened AppState

  datatype Page = FeedPage | DashboardPage

  /**
   * The top-level screen. Only the main layout holds the navigation, the
   * chosen page, the chat bubble and the apply popup.
   */
  datatype Screen = LoginScreen | ResumeUploadScreen | MainLayout(page: Page)

  /** `useState('feed')`. */
  const InitialView: string := "feed"

  /** No user: login; a user without a resume: the upload screen; otherwise the page `view` selects. */
  function Render(user: Option<User>, view: string): (r: Screen)
    ensures r.LoginScreen? <==> user.None?
    ensures r.ResumeUploadScreen? <==> user.Some? && !HasResume(user.value)
    ensures r.MainLayout? <==> user.Some? && HasResume(user.value)
    ensures r.MainLayout? ==> (r.page == FeedPage <==> view == "feed")
  {
    if user.None? then LoginScreen
    else if !HasResume(user.value) then ResumeUploadScreen
    else MainLayout(if view == "feed" then FeedPage else DashboardPage)
  }

  /** A user with a resume lands on the job feed. */
  lemma FirstScreenIsFeed(u: User)
    requires HasResume(u)
    ensures Render(Some(u), InitialView) == MainLayout(FeedPage)
  {
  }
}
