# Usage gating and accounting of the AI pages

This project models the usage gate and usage accounting of a browser front end
that sends chat messages and image prompts to AI edge functions. The logic sits
in three React pages:

- The chat page keeps an append-only message log. Its send handler skips blank
  input or a send already under way. It turns a free user with 15 or more
  messages today away to the subscription page. Otherwise it appends the user's
  message, calls `ai-chat` with the whole history, appends the answer, and
  writes the daily counter. It writes the counter for free users only.
- The image page has the same send guard, with a limit of 5 images for free
  users. On success it stores the returned image URL. It writes the image
  counter for every role.
- The dashboard loads the profile on mount. It shows the remaining messages
  and images, the tier, and an upgrade button.

Each page is a class whose fields are the page's React state. The `profiles`
table is a `ProfileStore` object shared by the pages. It holds a map from user
id to profile row, and a ghost log of every read and write made to it. The
outside world enters as parameters:

- the session, as `Option<Id>`
- whether a read or a write reaches the store (`reachable`, `commitLands`)
- what the AI edge function answers (`Reply`: `Ok(value)` or `Err`)

Navigation and error toasts are collapsed into the returned `Outcome`.

The model keeps two facts as the code has them:

- **Stale snapshot.** The pages never refresh their `profile` snapshot after
  writing a counter. Every write is therefore the snapshot's count plus one.
  Two answered sends write the same value, and for a free user who starts the
  session at 14 the second send is let through as well
  (`Scenarios.TwoSendsWriteTheSameCount`). More generally, `HandleSend` keeps
  `profile == old(profile)` and the gate is a function of `profile` alone, so
  a gate that is open on mount stays open for the whole visit.
- **Different gate inputs.** The chat gate compares `daily_usage_count` without
  a default. `null >= 15` is false in JavaScript, so a missing count never
  closes that gate. The image gate reads `image_generation_count || 0`.

Further behaviours the code has and the model states:

- The chat and image pages ignore the error of their profile read and store
  a null profile. A null profile is never limited. On the chat page it is
  also never counted (`Scenarios.ChatFailsOpenWithoutProfile`).
- On the image page, a successful generation with a null profile shows the
  image first. It then throws on `profile.id`, which the handler reports as an
  error, and nothing is written (`Scenarios.ImageWithoutProfile`).
- The counter writes never check the error that the update returns. A write
  that does not take effect is silent on both pages: the outcome is `Done`
  either way. The chat page awaits the write but never reads its error, and
  the model follows the code.
- The dashboard's remaining-images figure ignores the tier. A pro user with
  5 or more images sees 0 there and "Unlimited" on the image page.

Files: `common.dfy` (shared value types), `text.dfy` (JavaScript `trim`),
`profiles.dfy` (the profile row and the store), `chat.dfy`,
`image_generation.dfy`, `dashboard.dfy`, and `scenarios.dfy`. The last one
holds whole interactions, each with its result stated.

## Model

| member | source | states |
|---|---|---|
| Text.TrimStart | src/pages/Chat.tsx:55 | the result is a suffix of the input, everything dropped is white space, and the result does not start with white space |
| Text.TrimEnd | src/pages/Chat.tsx:55 | the result is a prefix of the input, everything dropped is white space, and the result does not end with white space |
| Text.Trim | src/pages/ImageGeneration.tsx:49 | `trim()` returns the slice of its input between a blank prefix and a blank suffix, and that slice has no white space at either end |
| Text.TrimEmptyIffBlank | src/pages/Chat.tsx:55 | `!s.trim()` holds exactly when every character of `s` is white space |
| Profiles.RoleOf | src/pages/Chat.tsx:58 | a snapshot is free or pro exactly when it is present with role "free" or "pro"; a null snapshot or any other role is neither |
| Profiles.Lookup | src/pages/Dashboard.tsx:29-33 | a `single()` read yields the row exactly when the request gets through and a row has that id, and otherwise null |
| Profiles.WithCount | src/pages/Chat.tsx:92-95 | an update by id sets that one counter of that row and leaves the other counter, the role, the id and every other row unchanged, and adds no row |
| Profiles.ProfileStore.constructor | src/pages/Dashboard.tsx:29-33 | the store starts with the given id-keyed rows and an empty access log |
| Profiles.ProfileStore.Select | src/pages/Dashboard.tsx:29-33 | a read returns the looked-up row, whose id is the requested one, changes no row, and logs one read |
| Profiles.ProfileStore.Update | src/pages/ImageGeneration.tsx:75-78 | a write that lands applies `WithCount`, one that does not leaves the rows as they were, and either way one write is logged |
| Chat.ChatLimitReached | src/pages/Chat.tsx:58 | only a free user with a recorded count is turned away, and then exactly when the count is at least 15; a missing count never triggers the limit |
| Chat.RemainingMessages | src/pages/Chat.tsx:108 | "Unlimited" exactly for pro; otherwise 0 exactly when at least 15 are used, else 15 minus the used count, and never above 15 for a count that is not negative |
| Chat.GateAgreesWithRemaining | src/pages/Chat.tsx:58-108 | for a free user with a recorded count, the gate closes exactly when 0 messages remain; with no recorded count it never closes and 15 remain |
| Chat.OnlyFreeIsLimited | src/pages/Chat.tsx:58 | a pro, unknown-role or missing profile is never turned away |
| Chat.ChatPage.constructor | src/pages/Chat.tsx:20-23 | the page starts with no messages, empty input, not loading and a null profile |
| Chat.ChatPage.SetInput | src/pages/Chat.tsx:182 | typing replaces the input |
| Chat.ChatPage.CheckAuth | src/pages/Chat.tsx:29-52 | without a session: redirect to login, no store access, profile kept; with one: one read, and the profile becomes the row or null on an error, with nothing reported |
| Chat.ChatPage.HandleSend | src/pages/Chat.tsx:54-106 | blank input or loading: nothing changes and no call is made. At the limit: redirect to subscription, nothing changes. Otherwise the AI gets the prior history plus the user message, and the input is cleared. A failed call leaves the log ending in the user message, with no write. An answered call appends the user message then the answer, and writes the snapshot count plus one for free users only. The snapshot and `loading` end as they began, and the log only grows |
| ImageGeneration.ImageLimitReached | src/pages/ImageGeneration.tsx:52 | only free users are turned away, exactly when the count (missing read as 0) is at least 5 |
| ImageGeneration.RemainingGenerations | src/pages/ImageGeneration.tsx:111 | "Unlimited" exactly for pro; otherwise 0 exactly when at least 5 are used (missing read as 0), else 5 minus the used count, never above 5 for a count that is not negative |
| ImageGeneration.UpgradeButtonShown | src/pages/ImageGeneration.tsx:156 | the upgrade button shows exactly when the gate would turn the request away, and then 0 generations remain |
| ImageGeneration.ImagePage.constructor | src/pages/ImageGeneration.tsx:14-17 | the page starts with an empty prompt, not loading, no image and a null profile |
| ImageGeneration.ImagePage.SetPrompt | src/pages/ImageGeneration.tsx:134 | typing replaces the prompt |
| ImageGeneration.ImagePage.CheckAuth | src/pages/ImageGeneration.tsx:23-46 | without a session: redirect to login, no store access; with one: one read, and the profile becomes the row or null on an error, with nothing reported |
| ImageGeneration.ImagePage.HandleGenerate | src/pages/ImageGeneration.tsx:48-93 | blank prompt or loading: nothing changes and no call is made. At the limit: redirect, nothing changes. Otherwise the prompt is sent. A failed call keeps the previous image and writes nothing. An answered call stores the URL. With a null profile it then fails with no write. Otherwise it writes the snapshot count (missing read as 0) plus one, for every role. The prompt, snapshot and `loading` end as they began |
| Dashboard.RemainingMessages | src/pages/Dashboard.tsx:59 | the dashboard's message figure equals the chat page's for every profile |
| Dashboard.RemainingImages | src/pages/Dashboard.tsx:60 | 0 exactly when at least 5 images are used, else 5 minus the used count, whatever the tier; within [0, 5] for a count that is not negative |
| Dashboard.RemainingImagesIgnoresTier | src/pages/Dashboard.tsx:60 | off pro the figure is the image page's; for pro the image page says "Unlimited" while the dashboard shows 0 from 5 images on |
| Dashboard.TierLabel | src/pages/Dashboard.tsx:111 | the label is never empty, falls back to "Free" when the profile or role is missing or empty, and is the stored role whenever that role is present and not empty |
| Dashboard.UpgradeShown | src/pages/Dashboard.tsx:112 | the upgrade button appears exactly when the label is "free", that is for the role "free", and then the messages are metered |
| Dashboard.MissingRoleLooksFreeButIsUngated | src/pages/Dashboard.tsx:111-112 | a profile with no role is labelled "Free", is offered no upgrade, and is never limited by either gate |
| Dashboard.DashboardPage.constructor | src/pages/Dashboard.tsx:13-14 | the page starts with a null profile and loading |
| Dashboard.DashboardPage.CheckAuth | src/pages/Dashboard.tsx:20-47 | `loading` is false on every path. Without a session: redirect to login and no store read. A read error: failure reported and the profile not set. Otherwise the profile is the row for the session's id |
| Scenarios.FreeSendBelowLimit | src/pages/Chat.tsx:54-106 | a free user below 15 whose message is answered ends with the stored count one higher, 14 becoming 15 |
| Scenarios.FreeSendAtLimit | src/pages/Chat.tsx:58-65 | a free user at 15 or more is redirected, and the count and the message log are unchanged |
| Scenarios.TwoSendsWriteTheSameCount | src/pages/Chat.tsx:91-96 | two answered sends from the same snapshot both pass the gate and leave the stored count at the snapshot plus one |
| Scenarios.ChatFailsOpenWithoutProfile | src/pages/Chat.tsx:38-44 | when the profile read fails, a free user at any count has the message answered and no count is written |
| Scenarios.ProImageIsCounted | src/pages/ImageGeneration.tsx:72-78 | a pro user's image is generated and the image count still rises by one |
| Scenarios.FailedImageKeepsCount | src/pages/ImageGeneration.tsx:84-89 | a free user's failed image call leaves the count and the shown image as they were |
| Scenarios.ImageWithoutProfile | src/pages/ImageGeneration.tsx:72-78 | with a null profile an answered image call shows the image, fails, and writes nothing |
| Scenarios.DashboardWithoutSession | src/pages/Dashboard.tsx:24-27 | without a session the dashboard redirects to login, makes no store access and stops loading |

## Left out

- JSX rendering, CSS classes, icons and toast texts: presentation only. Toasts survive as the `Failed` outcome.
- The Supabase client. The session, the profile read and write, and the edge-function invocations are not modelled as a library: they enter as parameters and as the `ProfileStore` map with its access log.
- Routing: `navigate(...)` becomes the returned `Outcome`.
- `handleDownload` (src/pages/ImageGeneration.tsx:95-109): DOM manipulation and the clock.
- src/components/Navigation.tsx and src/pages/Index.tsx: navigation UI, a thin sign-out wrapper and a session-presence redirect.
- Chat.ChatPage.HandleSend: runs to completion in one step. The state while the AI call is in flight is not observable: at that point `loading` is true, the input is cleared and the user message is shown. So the model shows a busy page only when its caller sets `loading`.
- ImageGeneration.ImagePage.HandleGenerate: runs to completion in one step. The state while the image call is in flight is not observable: at that point `loading` is true and the prompt is kept. So the model shows a busy page only when its caller sets `loading`.
- Concurrent or double-click races on the counters: these involve async React state and the remote store, and the code has no locking.
- A daily reset of the message counter, and an atomic check-and-increment: neither exists in the code.
- Exceptions thrown by `getSession` or by the network, caught by the `checkAuth` handlers: only the no-session and read-error paths are modelled.
- Integer limits: counts are unbounded integers. The table's integer column overflow and JavaScript's 2^53 limit are not modelled.
- The data of an answered edge-function call is taken to carry `response` or `imageUrl`. A malformed answer is not modelled.
- Other labels on the dashboard's cards (src/pages/Dashboard.tsx:83, 98) and the chat page's upgrade button (src/pages/Chat.tsx:121) are display text keyed on the role, not modelled.
