# Portfolio site effects and content core, in Dafny

This project models the logic behind a React portfolio site: the limits
that keep its animations and particle effects cheap, the static project
catalogue, and the texts it serves to search engines.

- `PerformanceManager` (`performance_manager.dfy`) models the process-wide
  effects governor as a class. It holds:
  - a budget fixed by the device class;
  - live counters of running animations and particles;
  - a click cooldown, with a one-second click-rate window;
  - a particle cooldown;
  - subscribers, who are told about every change.
- `InteractionLimiter` (`interaction_limiter.dfy`) models the per-element
  click gate. It combines a throttle, a cooldown and a cap on the
  animations that accepted clicks started.
- `OptimizedAnimations` (`optimized_animations.dfy`) models a component's
  animation gate: a count under a limit of 3, or 2 on mobile. It also
  holds the transition profile for the reduced-motion preference and the
  device class.
- `ProjectModel` (`project_model.dfy`) models the project catalogue and
  its category and featured filters.
- `SeoUtils` (`seo_utils.dfy`) models three outputs:
  - the sitemap writer, with a reader that turns its output back into
    its entries;
  - the robots.txt text;
  - the schema.org structured-data record.
- `WelcomeOverlay` (`welcome_overlay.dfy`) models the two flags that
  sequence the welcome overlay and the page content.
- `PopupParticles` (`popup_particles.dfy`) models the popup-burst
  visibility flag, with its mount timer and its hide timers.
- `Optional`, `Counters` and `Sequences` are shared helpers: an option
  type, the decrement that stops at zero, and the subsequence relation.

Throughout the model:
- Time is a `now` parameter.
- The device class and the reduced-motion preference are inputs.
- The browser's storage flag is a boolean field.
- Every timer is an event method. It may be called while the timer is
  pending, and the field that records the pending timer holds its due
  time.

The click-rate clause is dead code. The manager asks for fewer animations
when `clicksPerSecond > 5`, but the click cooldown keeps accepted clicks
at least 300 ms apart. The one-second window can therefore hold at most 4
clicks, or 2 on a mobile budget (`PerformanceManager.Manager.ClickRateIsBounded`).
The model keeps the clause as the source writes it and proves that the
answer depends on the other two reasons alone.

A related effect exists in the welcome overlay hook. If the overlay is
completed before the 100 ms show timer fires, the timer then raises the
overlay over content that has already faded in
(`WelcomeOverlay.CompleteBeforeTimer`). The site itself completes the
overlay only while it is shown (src/App.tsx:33-38), so this sequence does
not happen there.

## Model

| member | source | states |
|---|---|---|
| Counters.Release | src/hooks/useGlobalPerformanceManager.ts:112 | ending an effect lowers a positive counter by exactly one and leaves a zero counter at zero |
| PerformanceManager.BudgetFor | src/hooks/useGlobalPerformanceManager.ts:37-42 | the budget of a device class: 2 animations, 15 particles, 500 ms click and 800 ms particle cooldown on mobile, 3/25/300/500 on desktop; the click cooldown is always the shorter one |
| PerformanceManager.MobileBudgetIsTighter | src/hooks/useGlobalPerformanceManager.ts:37-42 | a mobile budget has strictly smaller animation and particle limits and strictly longer click and particle cooldowns than a desktop one; every click cooldown is at least 300 ms |
| PerformanceManager.Recent | src/hooks/useGlobalPerformanceManager.ts:80 | the click-rate window keeps each timestamp less than 1000 ms before `now` exactly as often as the input holds it, drops every other one, and keeps the input's order |
| PerformanceManager.Deliver | src/hooks/useGlobalPerformanceManager.ts:61-63 | one notification round calls every current subscriber exactly once and nobody else |
| PerformanceManager.Manager.constructor | src/hooks/useGlobalPerformanceManager.ts:23-43 | the counters start at 0, and the budget is the one of the device class: 2/15/500/800 on mobile, 3/25/300/500 on desktop |
| PerformanceManager.Manager.Subscribe | src/hooks/useGlobalPerformanceManager.ts:65-66 | adds the subscriber and changes nothing else |
| PerformanceManager.Manager.Unsubscribe | src/hooks/useGlobalPerformanceManager.ts:67-69 | removes the subscriber, so later rounds of `Deliver` pass it over, and changes nothing else |
| PerformanceManager.Manager.NotifySubscribers | src/hooks/useGlobalPerformanceManager.ts:61-63 | the delivery counts advance by one round over the current subscribers |
| PerformanceManager.Manager.CanTriggerClick | src/hooks/useGlobalPerformanceManager.ts:72-86 | accepts iff a full cooldown has passed since the last accepted click; a refused click changes nothing; an accepted one enters the window, which keeps only the last second, sets the rate to the window's length, records the time and notifies every subscriber once; accepted clicks stay a cooldown apart |
| PerformanceManager.Manager.CanTriggerParticles | src/hooks/useGlobalPerformanceManager.ts:88-104 | grants iff the particle cooldown has passed, the particle budget is not used up and motion is not reduced; only a grant records its time, and no counter moves |
| PerformanceManager.Manager.IncrementParticles | src/hooks/useGlobalPerformanceManager.ts:106-109 | adds exactly one running particle with no budget check, leaves every other metric alone and notifies every subscriber once |
| PerformanceManager.Manager.DecrementParticles | src/hooks/useGlobalPerformanceManager.ts:111-114 | removes one running particle, stopping at zero, and notifies every subscriber once |
| PerformanceManager.Manager.IncrementAnimations | src/hooks/useGlobalPerformanceManager.ts:116-119 | adds exactly one running animation with no budget check, leaves every other metric alone and notifies every subscriber once |
| PerformanceManager.Manager.DecrementAnimations | src/hooks/useGlobalPerformanceManager.ts:121-124 | removes one running animation, stopping at zero, and notifies every subscriber once |
| PerformanceManager.Manager.GetMetrics | src/hooks/useGlobalPerformanceManager.ts:126-128 | a copy of the live metrics, whose click rate never exceeds 5 |
| PerformanceManager.Manager.GetConfig | src/hooks/useGlobalPerformanceManager.ts:130-132 | a copy of the budget, which is the budget of the device class |
| PerformanceManager.Manager.ClickRateIsBounded | src/hooks/useGlobalPerformanceManager.ts:72-86 | the click-rate window never holds more than 4 clicks on desktop or 2 on mobile, so never more than 5 |
| PerformanceManager.Manager.ShouldReduceAnimations | src/hooks/useGlobalPerformanceManager.ts:134-138 | true iff motion is reduced, the animation budget is used up or the click rate exceeds 5; equivalently, iff one of the first two reasons holds |
| PerformanceManager.AcceptedClicksAreSpaced | src/hooks/useGlobalPerformanceManager.ts:72-76 | any two accepted clicks, in the order they were accepted, lie at least one click cooldown apart |
| InteractionLimiter.WithDefaults | src/hooks/useInteractionLimiter.ts:10-15 | every option the caller gives wins; a missing one defaults to a 300 ms cooldown, 2 animations and a 100 ms throttle |
| InteractionLimiter.Limiter.constructor | src/hooks/useInteractionLimiter.ts:10-20 | not throttled, no running animation, last click at 0, no timer pending |
| InteractionLimiter.Limiter.CanInteract | src/hooks/useInteractionLimiter.ts:22-29 | a click is let through only when the element is not throttled, a full cooldown has passed and one more animation fits under the cap |
| InteractionLimiter.Limiter.HandleClick | src/hooks/useInteractionLimiter.ts:22-56 | runs the callback iff not throttled, a full cooldown has passed and an animation slot is free; a refused click changes nothing; an accepted one records the time, throttles, starts one animation, replaces the throttle timer and schedules one animation-end timer a second later; running animations never exceed the cap |
| InteractionLimiter.Limiter.ThrottleExpire | src/hooks/useInteractionLimiter.ts:44-50 | the single pending throttle timer fires and lifts the throttle; nothing else changes |
| InteractionLimiter.Limiter.AnimationExpire | src/hooks/useInteractionLimiter.ts:52-55 | the earliest animation-end timer fires and ends one animation, stopping at zero; the count is then always positive, so the clamp never acts |
| InteractionLimiter.Limiter.HandleHover | src/hooks/useInteractionLimiter.ts:58-63 | runs the callback iff fewer than half the allowed animations run, whatever the throttle and the cooldown, and changes nothing; with the default cap, iff none runs |
| OptimizedAnimations.AnimationConfigFor | src/hooks/useOptimizedAnimations.ts:46-56 | the profile has zero duration, and a linear ease, exactly under reduced motion; otherwise 0.3 s on mobile and 0.5 s on desktop |
| OptimizedAnimations.AnimationConfigProperties | src/hooks/useOptimizedAnimations.ts:46-56 | reduced motion gives a zero-length linear profile on any device; otherwise every profile eases out, and a mobile one is shorter than a desktop one |
| OptimizedAnimations.AnimationGate.constructor | src/hooks/useOptimizedAnimations.ts:5-8 | no motion preference, desktop class, no animation, limit 3 |
| OptimizedAnimations.AnimationGate.Mount | src/hooks/useOptimizedAnimations.ts:10-22 | records the media values; a mobile device lowers the limit to 2 and a desktop one keeps it; the budget still holds unless more than 2 animations already run on mobile |
| OptimizedAnimations.AnimationGate.ReducedMotionChanged | src/hooks/useOptimizedAnimations.ts:24-25 | the preference becomes the media value |
| OptimizedAnimations.AnimationGate.ShouldAnimate | src/hooks/useOptimizedAnimations.ts:30-32 | an animation may start only when one more fits under the limit, and never under reduced motion |
| OptimizedAnimations.AnimationGate.StartAnimation | src/hooks/useOptimizedAnimations.ts:30-40 | starts and counts one animation iff motion is not reduced and the limit is not reached; with reduced motion it never starts; a count within the limit stays within it |
| OptimizedAnimations.AnimationGate.EndAnimation | src/hooks/useOptimizedAnimations.ts:42-44 | ends one animation, stopping at zero; a count within the limit stays within it |
| OptimizedAnimations.AnimationGate.GetAnimationConfig | src/hooks/useOptimizedAnimations.ts:46-56 | the profile for the current preference and device class; reduced motion means zero duration, linear |
| OptimizedAnimations.MobileScenario | src/hooks/useOptimizedAnimations.ts:20-22 | on mobile two animations start, the third is refused, and ending one lets the next start |
| ProjectModel.Filter | src/models/projectModel.ts:68 | keeps the elements that satisfy the test and only those, in their order, as a subsequence of the input |
| ProjectModel.FilterCounts | src/models/projectModel.ts:68 | the filter keeps each element that passes the test exactly as often as the input holds it, and drops every other one |
| ProjectModel.GetAllProjects | src/models/projectModel.ts:19-49 | all four projects, in declaration order |
| ProjectModel.GetProjectsByCategory | src/models/projectModel.ts:65-69 | "all" gives the whole catalogue; any other id gives exactly the projects of that category, as a subsequence of the catalogue |
| ProjectModel.GetFeaturedProjects | src/models/projectModel.ts:77-80 | exactly the featured projects, as a subsequence of the catalogue |
| ProjectModel.GetCategories | src/models/projectModel.ts:51-56 | all, backend, frontend, academic, in that order |
| ProjectModel.CategoryIdsDistinct | src/models/projectModel.ts:6 | the three categories have three distinct ids, none of them "all" |
| ProjectModel.SubsequenceLength | src/models/projectModel.ts:68 | a filtered list is never longer than the list it came from |
| ProjectModel.UnknownCategoryYieldsNothing | src/models/projectModel.ts:65-69 | an id other than "all" and the three category ids, such as "mobile", selects no project |
| ProjectModel.CategoriesPartition | src/models/projectModel.ts:68 | the backend, frontend and academic results of any project list together hold each of its projects exactly as often as the list does |
| ProjectModel.CatalogueByCategory | src/models/projectModel.ts:19-49 | the catalogue has two backend projects, one frontend and one academic |
| ProjectModel.OnlyOneFeatured | src/models/projectModel.ts:25 | the only featured project is "E-Commerce API" |
| SeoUtils.DatePart | src/utils/seoUtils.ts:19 | the text before the first 'T': a prefix of the timestamp with no 'T' in it, ended by a 'T' or by the end of the text |
| SeoUtils.GenerateSitemap | src/utils/seoUtils.ts:4-24 | the sitemap opens with the XML declaration and `<urlset>` tag and ends with the closing tag; its entries are stated by `SeoUtils.SitemapRoundTrip` |
| SeoUtils.UrlBlockRoundTrip | src/utils/seoUtils.ts:15-20 | reading back a written `<url>` block gives its entry and leaves the text after it untouched |
| SeoUtils.UrlBlocksRoundTrip | src/utils/seoUtils.ts:15-21 | reading back the newline-joined blocks and the closing tag gives the entries, in order |
| SeoUtils.SitemapRoundTrip | src/utils/seoUtils.ts:4-24 | reading back the sitemap gives one entry per route, in route order; each location is the base URL plus the path; each frequency and priority is the route's own; every date is the timestamp's part before the 'T' |
| SeoUtils.JoinContains | src/utils/seoUtils.ts:29-43 | every element of a joined text appears in it at its computed offset |
| SeoUtils.GenerateRobotsTxt | src/utils/seoUtils.ts:26-48 | the site's robots.txt opens with the group that lets every crawler ("*") fetch everything and ends with the one-second crawl delay |
| SeoUtils.RobotsTextProperties | src/utils/seoUtils.ts:26-48 | the text holds an allow-everything group for each listed crawler, the sitemap address after the groups, and ends with a one-second crawl delay |
| SeoUtils.RobotsTxtProperties | src/utils/seoUtils.ts:26-48 | the site's robots.txt does this for five crawlers, "*" first |
| SeoUtils.PersonFields | src/utils/seoUtils.ts:57-74 | the fixed Person fields are exactly name, jobTitle, worksFor, knowsAbout and sameAs |
| SeoUtils.GetStructuredData | src/utils/seoUtils.ts:50-78 | the keys are the caller's plus @context and @type, and the Person fields for a Person; caller keys override the context and type defaults; the fixed Person fields override the caller; every other caller key is kept |
| WelcomeOverlay.Overlay.constructor | src/hooks/useWelcomeOverlay.ts:5-6 | neither flag is set and no timer is pending |
| WelcomeOverlay.Overlay.Mount | src/hooks/useWelcomeOverlay.ts:8-22 | a returning visitor gets the content at once and no timer; a first visit schedules the show timer 100 ms ahead and changes no flag |
| WelcomeOverlay.Overlay.ShowTimerFires | src/hooks/useWelcomeOverlay.ts:14-16 | the overlay goes up and the content flag is left alone; the two flags stay exclusive iff the welcome had not been completed already; the overlay is only ever shown this way to a visitor without the seen flag |
| WelcomeOverlay.Overlay.Unmount | src/hooks/useWelcomeOverlay.ts:18 | a pending show timer is cancelled |
| WelcomeOverlay.Overlay.HandleWelcomeComplete | src/hooks/useWelcomeOverlay.ts:24-27 | the overlay goes down and the content comes in |
| WelcomeOverlay.Overlay.ResetWelcome | src/hooks/useWelcomeOverlay.ts:29-33 | the seen flag is cleared, the overlay goes up and the content goes out |
| WelcomeOverlay.ReturningVisit | src/hooks/useWelcomeOverlay.ts:19-21 | a visitor with the seen flag gets the content and no overlay or timer |
| WelcomeOverlay.FirstVisit | src/hooks/useWelcomeOverlay.ts:12-16 | a first visit shows nothing before the timer; the overlay then comes up alone, and the content comes in alone on completion |
| WelcomeOverlay.CompleteBeforeTimer | src/hooks/useWelcomeOverlay.ts:14-16 | completing before the show timer fires leaves both flags set |
| PopupParticles.Popup.constructor | src/hooks/usePopupParticles.ts:4-5 | the delay defaults to 1000 ms; the flag is down and no timer is pending |
| PopupParticles.Popup.Mount | src/hooks/usePopupParticles.ts:7-11 | schedules the one mount timer, due one trigger delay ahead |
| PopupParticles.Popup.MountTimerFires | src/hooks/usePopupParticles.ts:9-11 | the flag goes up; the mount timer only fires while the component is mounted |
| PopupParticles.Popup.Unmount | src/hooks/usePopupParticles.ts:13 | the mount timer is cancelled, and the hide timers stay scheduled |
| PopupParticles.Popup.ChangeTriggerDelay | src/hooks/usePopupParticles.ts:13-14 | a new delay replaces the pending mount timer with one due the new delay ahead; the same delay changes nothing |
| PopupParticles.Popup.TriggerParticles | src/hooks/usePopupParticles.ts:16-22 | the flag goes up at once and exactly one more hide timer is scheduled 3000 ms ahead; earlier ones stay |
| PopupParticles.Popup.HideTimerFires | src/hooks/usePopupParticles.ts:19-21 | any pending hide timer lowers the flag, whatever the other pending hide timers; each hide belongs to a trigger that ran, and none fires twice |
| PopupParticles.Popup.SetShowParticles | src/hooks/usePopupParticles.ts:27 | the caller's value becomes the flag |
| PopupParticles.OverlappingTriggers | src/hooks/usePopupParticles.ts:16-22 | with triggers at 0 and 2000 ms, the first hide ends the display at 3000 ms while the second trigger's hide is still pending |

## Left out

- The React plumbing is left out: `useState`, `useRef`, `useCallback`, the
  hook wrapper around the manager (src/hooks/useGlobalPerformanceManager.ts:141-168),
  asynchronous state batching and stale closures. Each hook's state is a
  set of fields updated one call at a time.
- The singleton accessor is left out (src/hooks/useGlobalPerformanceManager.ts:45-50).
  Callers hold one `Manager`.
- The environment probes are constructor or mount inputs: the mobile
  check, the reduced-motion query, the user agent and the window width
  (src/hooks/useGlobalPerformanceManager.ts:52-59, src/hooks/useOptimizedAnimations.ts:12-17).
- `Date.now()` is the `now` parameter. The current ISO timestamp is the
  `isoNow` parameter.
- `localStorage` is the boolean `hasSeenWelcome`. The overlay component
  that sets it is not part of this model.
- Timers are event methods. The model does not enforce firing order by
  due time, except that the limiter's animation-end timers fire in the
  order they were scheduled.
- Callbacks are reduced to what can be observed of them:
  - subscribers are ids, and the model counts the notifications each one
    receives;
  - the limiter reports whether the callback ran, as its result `ran`.
- ProjectModel: the simulated network delay (src/models/projectModel.ts:60-62, 72-74)
  is left out, because the promise carries no logic. Every query is a
  plain function.
- SeoUtils.GenerateSitemap: one date is stamped on every entry. The source
  reads the clock once per route (src/utils/seoUtils.ts:19), so a sitemap
  written across a UTC midnight can carry two different dates. The model
  takes a single `isoNow` for the whole sitemap.
- SeoUtils.GetStructuredData: JSON object key order is not modelled. The
  record is a map, and JSON numbers are integers.
- InteractionLimiter.WithDefaults: a negative or fractional cap, and
  fractional times, are not modelled. The cap is a natural number, and the
  cooldown and throttle delay are integers; negative ones are modelled.
- InteractionLimiter.Limiter: the options are fixed for the lifetime of an
  instance (`const settings`). The hook reads them again on every render
  (src/hooks/useInteractionLimiter.ts:10-15). A caller that lowers the cap
  while animations run leaves more animations running than the new cap, so
  the cap clause of `Valid()` holds only under this assumption.
- InteractionLimiter.Limiter.HandleClick: the callback is taken to return
  normally. In the source it runs after the click time is recorded, the
  element is throttled and one more animation is counted
  (src/hooks/useInteractionLimiter.ts:36-41), but before either timer is
  scheduled (lines 44-55). A callback that throws leaves the element
  throttled for good, with one animation slot taken and no timer to free
  it. The button that forwards `onClick` then stays disabled
  (src/components/ui/OptimizedButton.tsx:26-37). `Valid()` ties the throttle
  and every running animation to a pending timer, which that path breaks.
- OptimizedAnimations.AnimationGate.Mount: the budget is stated as
  preserved, not as always holding. The mount effect lowers the limit to
  2 without looking at animations already started, so a count of 3 from
  before mount can exceed the mobile limit.
- The particle physics, the visual effects components, the meta-tag DOM
  updates, the pages, the layout and the controllers are not part of this
  model. They are rendering, randomness, floating point or I/O.
