/** The dashboard: profile loading on mount and the usage and tier figures it shows. */
module Dashboard {
  import opened Common
  import opened Profiles
  import Chat
  import ImageGeneration

  /**
   * The dashboard's `remainingMessages`, written out again on this page;
   * it is the chat page's figure for every profile.
   */
  function RemainingMessages(p: Option<Profile>): (r: Remaining)
    ensures r == Chat.RemainingMessages(p)
  {
    if RoleOf(p) == Pro then Unlimited else Left(Max0(15 - DailyUsed(p)))
  }

  /**
   * The dashboard's `remainingImages`: what is left of 5 for every role, pro
   * included; within [0, 5] whenever the count is not negative.
   */
  function RemainingImages(p: Option<Profile>): (n: nat)
    ensures n == 0 <==> ImagesUsed(p) >= 5
    ensures n > 0 ==> n + ImagesUsed(p) == 5
    ensures ImagesUsed(p) >= 0 ==> n <= 5
  {
    Max0(5 - ImagesUsed(p))
  }

  /**
   * Off the pro tier the dashboard agrees with the image page; for a pro
   * user with 5 or more images it shows 0 where the image page shows "Unlimited".
   */
  lemma RemainingImagesIgnoresTier(p: Option<Profile>)
    ensures RoleOf(p) != Pro ==> ImageGeneration.RemainingGenerations(p) == Left(RemainingImages(p))
    ensures RoleOf(p) == Pro ==> ImageGeneration.RemainingGenerations(p) == Unlimited
    ensures RoleOf(p) == Pro && ImagesUsed(p) >= 5 ==> RemainingImages(p) == 0
  {
  }

  /** The subscription card's label, `profile?.role || "Free"`. */
  function TierLabel(p: Option<Profile>): (tier: string)
    ensures tier != ""
    ensures p.None? || p.value.role.None? || p.value.role == Some("") ==> tier == "Free"
    ensures RoleOf(p) == Free ==> tier == "free"
    ensures RoleOf(p) == Pro ==> tier == "pro"
    ensures tier != "Free" ==> p.Some? && p.value.role == Some(tier)
    ensures p.Some? && p.value.role.Some? && p.value.role.value != "" ==> tier == p.value.role.value
  {
    if p.Some? && p.value.role.Some? && p.value.role.value != "" then p.value.role.value else "Free"
  }

  /** The subscription card's "Upgrade Now" button. */
  function UpgradeShown(p: Option<Profile>): (shown: bool)
    ensures shown <==> TierLabel(p) == "free"
    ensures shown ==> RemainingMessages(p) != Unlimited
  {
    RoleOf(p) == Free
  }

  /**
   * A profile with no role is labelled "Free" but offered no upgrade, and
   * neither quota gate ever applies to it.
   */
  lemma MissingRoleLooksFreeButIsUngated(p: Profile)
    requires p.role.None?
    ensures TierLabel(Some(p)) == "Free" && !UpgradeShown(Some(p))
    ensures !Chat.ChatLimitReached(Some(p)) && !ImageGeneration.ImageLimitReached(Some(p))
  {
  }

  class DashboardPage {
    /** Null until a profile has loaded. */
    var profile: Option<Profile>
    var loading: bool
    const store: ProfileStore

    constructor (store: ProfileStore)
      ensures this.store == store && profile == None && loading
    {
      this.store := store;
      profile := None;
      loading := true;
    }

    /**
     * `checkAuth` on mount. Without a session it redirects to the login page
     * and never reads the store; a read error keeps the profile unset and is
     * reported; on every path `finally` clears `loading`.
     */
    method CheckAuth(session: Option<Id>, reachable: bool) returns (outcome: Outcome)
      requires store.Valid()
      modifies this, store`accesses
      ensures !loading
      ensures store.rows == old(store.rows)
      ensures session.None? ==>
                outcome == RedirectLogin && profile == old(profile) && store.accesses == old(store.accesses)
      ensures session.Some? ==> store.accesses == old(store.accesses) + [Read(session.value)]
      ensures session.Some? && Lookup(store.rows, session.value, reachable).None? ==>
                outcome == Failed && profile == old(profile)
      ensures session.Some? && Lookup(store.rows, session.value, reachable).Some? ==>
                && outcome == Done
                && profile == Some(store.rows[session.value])
                && profile.value.id == session.value
    {
      if session.None? {
        outcome := RedirectLogin;
      } else {
        var data := store.Select(session.value, reachable);
        if data.None? {
          outcome := Failed;
        } else {
          profile := data;
          outcome := Done;
        }
      }
      loading := false;
    }
  }
}
