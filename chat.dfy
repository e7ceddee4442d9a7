/** The chat page: its message log, its send handler and its daily quota for free users. */
module Chat {
  import opened Common
  import opened Profiles
  import opened Text

  datatype Sender = User | Assistant

  /** One entry of the conversation, as it is shown and as it is sent to `ai-chat`. */
  datatype Message = Message(role: Sender, content: string)

  /** Messages a free user may send per day. */
  const DailyMessageLimit := 15

  /**
   * The daily-limit gate of `handleSend`. The count is compared as it is,
   * without defaulting, and `null >= 15` is false in JavaScript, so a missing
   * count never closes the gate.
   */
  function ChatLimitReached(p: Option<Profile>): (reached: bool)
    ensures reached ==> RoleOf(p) == Free
    ensures reached ==> p.Some? && p.value.dailyCount.Some?
    ensures RoleOf(p) == Free && p.value.dailyCount.Some? ==>
              (reached <==> p.value.dailyCount.value >= DailyMessageLimit)
  {
    RoleOf(p) == Free &&
    match p.value.dailyCount
    case Some(n) => n >= DailyMessageLimit
    case None => false
  }

  /** `remainingMessages`: "Unlimited" for pro, otherwise what is left of 15, never below 0. */
  function RemainingMessages(p: Option<Profile>): (r: Remaining)
    ensures r.Unlimited? <==> RoleOf(p) == Pro
    ensures r.Left? ==> (r.n == 0 <==> DailyUsed(p) >= DailyMessageLimit)
    ensures r.Left? && r.n > 0 ==> r.n + DailyUsed(p) == DailyMessageLimit
    ensures r.Left? && DailyUsed(p) >= 0 ==> r.n <= DailyMessageLimit
  {
    if RoleOf(p) == Pro then Unlimited else Left(Max0(DailyMessageLimit - DailyUsed(p)))
  }

  /**
   * For a free user with a recorded count the gate closes exactly when the
   * page shows 0 remaining; with no recorded count it never closes.
   */
  lemma GateAgreesWithRemaining(p: Option<Profile>)
    requires RoleOf(p) == Free
    ensures p.value.dailyCount.Some? ==> (ChatLimitReached(p) <==> RemainingMessages(p) == Left(0))
    ensures p.value.dailyCount.None? ==> !ChatLimitReached(p) && RemainingMessages(p) == Left(DailyMessageLimit)
  {
  }

  /**
   * A role other than "free" is never limited, however high the count, and
   * neither is a page whose profile did not load.
   */
  lemma OnlyFreeIsLimited(p: Option<Profile>)
    ensures RoleOf(p) != Free ==> !ChatLimitReached(p)
    ensures !ChatLimitReached(None)
  {
  }

  class ChatPage {
    var messages: seq<Message>
    var input: string
    var loading: bool
    /** The profile loaded on mount; nothing on the page refreshes it. */
    var profile: Option<Profile>
    const store: ProfileStore

    constructor (store: ProfileStore)
      ensures this.store == store
      ensures messages == [] && input == "" && !loading && profile == None
    {
      this.store := store;
      messages := [];
      input := "";
      loading := false;
      profile := None;
    }

    /** The text area's `onChange`. */
    method SetInput(text: string)
      modifies this`input
      ensures input == text
    {
      input := text;
    }

    /**
     * `checkAuth` on mount. Without a session it redirects to the login page
     * before touching the store. Otherwise it stores whatever the read gave,
     * null on an error, which it does not report.
     */
    method CheckAuth(session: Option<Id>, reachable: bool) returns (outcome: Outcome)
      requires store.Valid()
      modifies this`profile, store`accesses
      ensures store.rows == old(store.rows)
      ensures session.None? ==>
                outcome == RedirectLogin && profile == old(profile) && store.accesses == old(store.accesses)
      ensures session.Some? ==>
                && outcome == Done
                && profile == Lookup(store.rows, session.value, reachable)
                && store.accesses == old(store.accesses) + [Read(session.value)]
    {
      if session.None? {
        return RedirectLogin;
      }
      var data := store.Select(session.value, reachable);
      profile := data;
      outcome := Done;
    }

    /** The blank/busy guard and the daily-limit gate both let a send through. */
    ghost predicate SendProceeds()
      reads this
    {
      !IsBlank(input) && !loading && !ChatLimitReached(profile)
    }

    /**
     * `handleSend`. `reply` is what `ai-chat` answers if it is called and
     * `commitLands` whether the counter write takes effect; `request` is the
     * message list sent to `ai-chat`, `None` when no call is made.
     */
    method HandleSend(reply: Reply<string>, commitLands: bool) returns (outcome: Outcome, request: Option<seq<Message>>)
      requires store.Valid()
      modifies this, store
      ensures store.Valid()
      ensures profile == old(profile) && loading == old(loading)
      ensures old(messages) <= messages
      // Blank input or a send already under way: nothing happens.
      ensures IsBlank(old(input)) || old(loading) ==>
                outcome == NoOp && request == None && unchanged(this) && unchanged(store)
      // A free user at the limit is sent to the subscription page, with no call and no write.
      ensures !IsBlank(old(input)) && !old(loading) && ChatLimitReached(profile) ==>
                outcome == RedirectSubscription && request == None && unchanged(this) && unchanged(store)
      // An allowed send appends the user message and calls the AI with the history up to it.
      ensures old(SendProceeds()) ==>
                && request == Some(old(messages) + [Message(User, old(input))])
                && input == "" && !loading
      ensures old(SendProceeds()) && reply.Err? ==>
                && outcome == Failed
                && messages == old(messages) + [Message(User, old(input))]
                && unchanged(store)
      ensures old(SendProceeds()) && reply.Ok? ==>
                && outcome == Done
                && messages == old(messages) + [Message(User, old(input)), Message(Assistant, reply.value)]
      // Only a free user's counter is written, with the snapshot's count plus one.
      ensures old(SendProceeds()) && reply.Ok? && RoleOf(profile) == Free ==>
                && store.accesses == old(store.accesses) + [Write(profile.value.id, DailyUsage)]
                && store.rows == (if commitLands
                                  then WithCount(old(store.rows), profile.value.id, DailyUsage, DailyUsed(profile) + 1)
                                  else old(store.rows))
      ensures old(SendProceeds()) && reply.Ok? && RoleOf(profile) != Free ==> unchanged(store)
    {
      TrimEmptyIffBlank(input);
      if Trim(input) == [] || loading {
        return NoOp, None;
      }
      if ChatLimitReached(profile) {
        return RedirectSubscription, None;
      }
      var history := messages;
      var userMessage := Message(User, input);
      messages := messages + [userMessage];
      input := "";
      loading := true;
      request := Some(history + [userMessage]);
      match reply {
        case Err =>
          outcome := Failed;
        case Ok(text) =>
          messages := messages + [Message(Assistant, text)];
          if RoleOf(profile) == Free {
            store.Update(profile.value.id, DailyUsage, OrZero(profile.value.dailyCount) + 1, commitLands);
          }
          outcome := Done;
      }
      loading := false;
    }
  }
}
