/**
 * Whole interactions with a fresh store holding one profile, "u": page
 * mount, typing, then one or two handler runs.
 */
module Scenarios {
  import opened Common
  import opened Profiles
  import opened Text
  import opened Chat
  import opened ImageGeneration
  import opened Dashboard

  /** A free user below the daily limit sends a message that gets an answer: the count goes up by one. */
  method FreeSendBelowLimit(used: int, text: string, answer: string) returns (outcome: Outcome, stored: Option<int>)
    requires used < DailyMessageLimit && !IsBlank(text)
    ensures outcome == Done && stored == Some(used + 1)
  {
    var store := new ProfileStore(map["u" := Profile("u", Some("free"), Some(used), Some(0))]);
    var page := new ChatPage(store);
    var _ := page.CheckAuth(Some("u"), true);
    page.SetInput(text);
    var request;
    outcome, request := page.HandleSend(Ok(answer), true);
    assert page.messages == [Message(User, text), Message(Assistant, answer)];
    stored := store.rows["u"].dailyCount;
  }

  /** A free user at or over the daily limit is redirected: nothing is sent, written or logged. */
  method FreeSendAtLimit(used: int, text: string, answer: string) returns (outcome: Outcome, stored: Option<int>, shown: seq<Message>)
    requires used >= DailyMessageLimit && !IsBlank(text)
    ensures outcome == RedirectSubscription && stored == Some(used) && shown == []
  {
    var store := new ProfileStore(map["u" := Profile("u", Some("free"), Some(used), Some(0))]);
    var page := new ChatPage(store);
    var _ := page.CheckAuth(Some("u"), true);
    page.SetInput(text);
    var request;
    outcome, request := page.HandleSend(Ok(answer), true);
    assert request == None;
    stored := store.rows["u"].dailyCount;
    shown := page.messages;
  }

  /**
   * Two answered sends in a row write the same value, the snapshot's count
   * plus one, and the second is let through even from 14.
   */
  method TwoSendsWriteTheSameCount(used: int, first: string, second: string, answer: string) returns (outcome: Outcome, stored: Option<int>)
    requires used < DailyMessageLimit && !IsBlank(first) && !IsBlank(second)
    ensures outcome == Done && stored == Some(used + 1)
  {
    var store := new ProfileStore(map["u" := Profile("u", Some("free"), Some(used), Some(0))]);
    var page := new ChatPage(store);
    var _ := page.CheckAuth(Some("u"), true);
    page.SetInput(first);
    var request;
    outcome, request := page.HandleSend(Ok(answer), true);
    page.SetInput(second);
    outcome, request := page.HandleSend(Ok(answer), true);
    assert |page.messages| == 4;
    stored := store.rows["u"].dailyCount;
  }

  /**
   * When the chat page's profile read fails, the profile is null and a free
   * user far over the limit chats on, with no count written.
   */
  method ChatFailsOpenWithoutProfile(used: int, text: string, answer: string) returns (outcome: Outcome, stored: Option<int>)
    requires !IsBlank(text)
    ensures outcome == Done && stored == Some(used)
  {
    var store := new ProfileStore(map["u" := Profile("u", Some("free"), Some(used), Some(0))]);
    var page := new ChatPage(store);
    var _ := page.CheckAuth(Some("u"), false);
    page.SetInput(text);
    var request;
    outcome, request := page.HandleSend(Ok(answer), true);
    stored := store.rows["u"].dailyCount;
  }

  /** A pro user's image is always generated and still counted. */
  method ProImageIsCounted(used: int, prompt: string, url: string) returns (outcome: Outcome, stored: Option<int>, image: Option<string>)
    requires !IsBlank(prompt)
    ensures outcome == Done && stored == Some(used + 1) && image == Some(url)
  {
    var store := new ProfileStore(map["u" := Profile("u", Some("pro"), Some(0), Some(used))]);
    var page := new ImagePage(store);
    var _ := page.CheckAuth(Some("u"), true);
    page.SetPrompt(prompt);
    var request;
    outcome, request := page.HandleGenerate(Ok(url), true);
    stored := store.rows["u"].imageCount;
    image := page.generatedImage;
  }

  /** A free user's failed image request keeps the count where it was. */
  method FailedImageKeepsCount(used: int, prompt: string) returns (outcome: Outcome, stored: Option<int>, image: Option<string>)
    requires used < FreeImageLimit && !IsBlank(prompt)
    ensures outcome == Failed && stored == Some(used) && image == None
  {
    var store := new ProfileStore(map["u" := Profile("u", Some("free"), Some(0), Some(used))]);
    var page := new ImagePage(store);
    var _ := page.CheckAuth(Some("u"), true);
    page.SetPrompt(prompt);
    var request;
    outcome, request := page.HandleGenerate(Err, true);
    assert request == Some(prompt);
    stored := store.rows["u"].imageCount;
    image := page.generatedImage;
  }

  /**
   * With no profile loaded the image page shows the generated image, then
   * fails on the counter write and reports an error.
   */
  method ImageWithoutProfile(prompt: string, url: string) returns (outcome: Outcome, image: Option<string>, stored: Option<int>)
    requires !IsBlank(prompt)
    ensures outcome == Failed && image == Some(url) && stored == Some(9)
  {
    var store := new ProfileStore(map["u" := Profile("u", Some("free"), Some(0), Some(9))]);
    var page := new ImagePage(store);
    var _ := page.CheckAuth(Some("u"), false);
    page.SetPrompt(prompt);
    var request;
    outcome, request := page.HandleGenerate(Ok(url), true);
    image := page.generatedImage;
    assert store.accesses == [Read("u")];
    stored := store.rows["u"].imageCount;
  }

  /** Without a session the dashboard goes to the login page, reads nothing and stops loading. */
  method DashboardWithoutSession() returns (outcome: Outcome, loading: bool)
    ensures outcome == RedirectLogin && !loading
  {
    var store := new ProfileStore(map["u" := Profile("u", Some("free"), Some(3), Some(1))]);
    var page := new DashboardPage(store);
    outcome := page.CheckAuth(None, true);
    assert store.accesses == [];
    loading := page.loading;
  }
}
