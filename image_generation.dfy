/** The image-generation page: its generate handler and its lifetime quota for free users. */
module ImageGeneration {
  import opened Common
  import opened Profiles
  import opened Text

  /** Images a free user may generate. */
  const FreeImageLimit := 5

  /**
   * The free-limit gate of `handleGenerate`. Unlike the chat gate it reads the
   * count with `|| 0`, so a missing count counts as none used.
   */
  function ImageLimitReached(p: Option<Profile>): (reached: bool)
    ensures reached ==> RoleOf(p) == Free
    ensures RoleOf(p) == Free ==> (reached <==> ImagesUsed(p) >= FreeImageLimit)
    ensures RoleOf(p) == Free && p.value.imageCount.None? ==> !reached
  {
    RoleOf(p) == Free && ImagesUsed(p) >= FreeImageLimit
  }

  /** `remainingGenerations`: "Unlimited" for pro, otherwise what is left of 5, never below 0. */
  function RemainingGenerations(p: Option<Profile>): (r: Remaining)
    ensures r.Unlimited? <==> RoleOf(p) == Pro
    ensures r.Left? ==> (r.n == 0 <==> ImagesUsed(p) >= FreeImageLimit)
    ensures r.Left? && r.n > 0 ==> r.n + ImagesUsed(p) == FreeImageLimit
    ensures r.Left? && ImagesUsed(p) >= 0 ==> r.n <= FreeImageLimit
  {
    if RoleOf(p) == Pro then Unlimited else Left(Max0(FreeImageLimit - ImagesUsed(p)))
  }

  /**
   * The "Upgrade to Pro" button under the prompt: shown for a free user with
   * nothing remaining, which is exactly when the gate turns a request away.
   */
  function UpgradeButtonShown(p: Option<Profile>): (shown: bool)
    ensures shown <==> ImageLimitReached(p)
    ensures shown ==> RemainingGenerations(p) == Left(0)
  {
    RoleOf(p) == Free && RemainingGenerations(p) == Left(0)
  }

  class ImagePage {
    var prompt: string
    var loading: bool
    var generatedImage: Option<string>
    /** The profile loaded on mount; nothing on the page refreshes it. */
    var profile: Option<Profile>
    const store: ProfileStore

    constructor (store: ProfileStore)
      ensures this.store == store
      ensures prompt == "" && !loading && generatedImage == None && profile == None
    {
      this.store := store;
      prompt := "";
      loading := false;
      generatedImage := None;
      profile := None;
    }

    /** The prompt text area's `onChange`. */
    method SetPrompt(text: string)
      modifies this`prompt
      ensures prompt == text
    {
      prompt := text;
    }

    /**
     * `checkAuth` on mount: as on the chat page, a read error leaves a null
     * profile and is not reported.
     */
    method CheckAuth(session: Option<Id>, reachable: bool) returns (outcome: Outcome)
      requires store.Valid()
      modifies this`profile, store`accesses
      ensures store.rows == old(store.rows)
      ensures session.None? ==>
                outcome == RedirectLogin && profile == old(profile) && store.accesses == old(store.accesses)
      ensures session.Some? ==>
                && outcome == Done
                && profile == Lookup(store.rows, session.value, reachable)
                && store.accesses == old(store.accesses) + [Read(session.value)]
    {
      if session.None? {
        return RedirectLogin;
      }
      var data := store.Select(session.value, reachable);
      profile := data;
      outcome := Done;
    }

    /** The blank/busy guard and the free-limit gate both let a request through. */
    ghost predicate GenerateProceeds()
      reads this
    {
      !IsBlank(prompt) && !loading && !ImageLimitReached(profile)
    }

    /**
     * `handleGenerate`. `reply` is the image URL `generate-image` answers if it
     * is called and `commitLands` whether the counter write takes effect;
     * `request` is the prompt sent, `None` when no call is made.
     */
    method HandleGenerate(reply: Reply<string>, commitLands: bool) returns (outcome: Outcome, request: Option<string>)
      requires store.Valid()
      modifies this, store
      ensures store.Valid()
      ensures profile == old(profile) && prompt == old(prompt) && loading == old(loading)
      // Blank prompt or a request already under way: nothing happens.
      ensures IsBlank(prompt) || old(loading) ==>
                outcome == NoOp && request == None && unchanged(this) && unchanged(store)
      // A free user at the limit is sent to the subscription page, with no call and no write.
      ensures !IsBlank(prompt) && !old(loading) && ImageLimitReached(profile) ==>
                outcome == RedirectSubscription && request == None && unchanged(this) && unchanged(store)
      ensures old(GenerateProceeds()) ==> request == Some(prompt) && !loading
      // A failed call keeps the previous image and writes nothing.
      ensures old(GenerateProceeds()) && reply.Err? ==>
                outcome == Failed && generatedImage == old(generatedImage) && unchanged(store)
      ensures old(GenerateProceeds()) && reply.Ok? ==> generatedImage == Some(reply.value)
      // With no profile, `profile.id` throws after the image is shown: no write, an error toast.
      ensures old(GenerateProceeds()) && reply.Ok? && profile.None? ==>
                outcome == Failed && unchanged(store)
      // Otherwise the counter is written for every role, with the snapshot's count plus one.
      ensures old(GenerateProceeds()) && reply.Ok? && profile.Some? ==>
                && outcome == Done
                && store.accesses == old(store.accesses) + [Write(profile.value.id, ImageGenerations)]
                && store.rows == (if commitLands
                                  then WithCount(old(store.rows), profile.value.id, ImageGenerations, ImagesUsed(profile) + 1)
                                  else old(store.rows))
    {
      TrimEmptyIffBlank(prompt);
      if Trim(prompt) == [] || loading {
        return NoOp, None;
      }
      if ImageLimitReached(profile) {
        return RedirectSubscription, None;
      }
      loading := true;
      request := Some(prompt);
      match reply {
        case Err =>
          outcome := Failed;
        case Ok(url) =>
          generatedImage := Some(url);
          if profile.None? {
            outcome := Failed;
          } else {
            store.Update(profile.value.id, ImageGenerations, ImagesUsed(profile) + 1, commitLands);
            outcome := Done;
          }
      }
      loading := false;
    }
  }
}
