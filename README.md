# PinSeoul core, modelled in Dafny

PinSeoul is a web app for collecting badges of places in Seoul. This project models the parts of it that compute or keep state. Each part is a module:

- **SpinImage** models the drag-to-spin image modal (`SpinModal`):
  - pointer gestures and double-press detection;
  - the inertia loop, with friction 0.98 and stop threshold 0.001;
  - the 500 ms ease-out-cubic reset to the default pose (10, −10);
  - frame-handle bookkeeping, made explicit as two pending slots, `coast` and `reset`.
- **SheetMap** models the home map screen:
  - the bottom sheet (`BottomSheet`) and its height rules: drag clamp, snap on release, toggle on click, re-clamp on resize, list height;
  - the recentring of the map on the Seoul bounding box;
  - the conversion of a map location into a badge and a marker style.
- **AppStoreModel** models the application store (`AppStore`): session flags, the profile merge, and the badge list with append, filter-by-id and clear.
- **RouteGuards** models routing:
  - the two session guards;
  - the right-to-left fold that nests a route's guards;
  - route rendering with the optional layout;
  - the auth, onboarding, logout and theme handlers acting on the store.
- **GeminiImage** models the badge-image service:
  - the two prompt templates;
  - the data-URL MIME and base64 regular-expression searches, as leftmost-match searches;
  - the fold over the streamed response chunks;
  - the checks around the request.
- **Common** holds `Option`, `Result` and real-number helpers.

Conventions:
- Values the program reads from the outside world are parameters:
  - clock readings;
  - window heights and pointer positions;
  - the auth session;
  - the response stream;
  - what a fetched blob reads back as;
  - what `parseInt` returns;
  - today's date.
- All arithmetic is on exact reals.

Behaviour of the code worth knowing:

- **First inertia frame.** Friction is applied before the displacement, so a release at velocity 4 turns the image by 4·0.98·16·0.8 = 50.176° on the first inertia frame (`SpinImage.DragThenCoastScenario`).
- **Double press.** It cancels inertia but not a drag in progress: `isPointerDown`, the last position and the last time are left as they were.
- **No mutual exclusion.** The reset animation's frame handle is never stored. A new press, a new inertia run and closing the modal therefore cannot cancel a running reset, and reset and inertia can both write the rotation in the same frame (`SpinImage.OverlappingAnimationsScenario`).
- **Reopening.** Opening the modal resets the pose and velocity but does not cancel a running inertia loop.
- **Early presses.** The last-press time starts at 0, so a press less than 300 ms after the clock's origin counts as a double press.

## Model

| member | source | states |
|---|---|---|
| SpinImage.MoveStep | src/components/SpinImageModal.tsx:155-174 | one pointer move: the rotation turns by 0.8 times the displacement (minus for rotX), the velocity is twice the displacement over the floored interval, and the sample becomes the last one |
| SpinImage.SampleInterval | src/components/SpinImageModal.tsx:161 | the sample interval is at least 1 ms and at least the clock difference, and equals one of the two |
| SpinImage.MoveVelocityBounded | src/components/SpinImageModal.tsx:158-169 | a move's velocity has the sign of the displacement, is zero exactly when the displacement is, and is at most twice its size |
| SpinImage.DragNetRotation | src/components/SpinImageModal.tsx:155-174 | over a whole drag the rotation changes by exactly 0.8 times the net pointer displacement (minus for rotX), the last sample is stored, and the velocity is that of the last move alone |
| SpinImage.CoastFrame | src/components/SpinImageModal.tsx:108-127 | one inertia frame: friction first, then stop if both speeds are below 0.001, else turn by the new velocity times 16 ms times 0.8 |
| SpinImage.CoastFrameFacts | src/components/SpinImageModal.tsx:108-119 | an inertia frame stops exactly when both incoming speeds are below 0.001/0.98 (friction first); a continuing frame does not speed up and turns by 12.8 times the new velocity |
| SpinImage.CoastAfterVelX | src/components/SpinImageModal.tsx:108-127 | while the loop runs, its horizontal velocity after n frames is the start velocity after n friction steps |
| SpinImage.CoastAfterVelY | src/components/SpinImageModal.tsx:108-127 | the same for the vertical velocity |
| SpinImage.DecayedBound | src/components/SpinImageModal.tsx:109-110 | after n friction steps a speed is at most 49/(49+n) of the start speed |
| SpinImage.DecayedBelowThreshold | src/components/SpinImageModal.tsx:109-115 | a speed of at most m is below the 0.001 threshold after more than 49000·m friction steps |
| SpinImage.StopBound | src/components/SpinImageModal.tsx:112 | the frame count exceeds 49000 times the larger start speed |
| SpinImage.CoastStoppedBy | src/components/SpinImageModal.tsx:108-127 | after more than 49000 times the larger start speed frames the loop has stopped |
| SpinImage.InertiaTerminates | src/components/SpinImageModal.tsx:108-127 | the inertia loop stops for every start velocity |
| SpinImage.Progress | src/components/SpinImageModal.tsx:81 | reset progress, elapsed over 500 ms capped at 1 |
| SpinImage.EaseOutCubic | src/components/SpinImageModal.tsx:84 | the ease-out cubic 1 - (1 - p)^3 |
| SpinImage.Lerp | src/components/SpinImageModal.tsx:86-87 | the interpolated coordinate start + (target - start) times the eased progress |
| SpinImage.ProgressFacts | src/components/SpinImageModal.tsx:76-81 | progress lies in [0, 1] and is 1 exactly from 500 ms on |
| SpinImage.ProgressMonotone | src/components/SpinImageModal.tsx:81 | progress never goes back as time passes |
| SpinImage.EaseFacts | src/components/SpinImageModal.tsx:84 | the ease-out cubic maps 0 to 0 and 1 to 1, stays in [0, 1] and is monotone |
| SpinImage.LerpOrdered | src/components/SpinImageModal.tsx:86-87 | interpolated points keep the order of their weights and stay between start and target |
| SpinImage.LerpApproaches | src/components/SpinImageModal.tsx:86-87 | a larger weight never moves the point away from the target and never overshoots it |
| SpinImage.ResetFrame | src/components/SpinImageModal.tsx:79-95 | one frame of a pending reset: the eased pose, rescheduled only while progress is below 1 |
| SpinImage.InertiaFrame | src/components/SpinImageModal.tsx:108-127 | one frame of a pending inertia loop: the loop's new rotation and velocity written to the widget, or the slot cleared when it stops |
| SpinImage.ResetFrameFinishes | src/components/SpinImageModal.tsx:79-95 | a reset frame at or after 500 ms lands exactly on (10, −10) and does not reschedule; before that it reschedules; it touches only the rotation and its own slot |
| SpinImage.ResetFrameApproaches | src/components/SpinImageModal.tsx:79-95 | between two frames of one reset each axis moves toward the default pose without overshooting |
| SpinImage.InertiaFrameFacts | src/components/SpinImageModal.tsx:108-127 | an inertia frame never increases either speed; when it stops it changes nothing but the slot; it leaves the drag fields, press history and reset alone |
| SpinImage.SpinModal.constructor | src/components/SpinImageModal.tsx:15-24 | the widget starts at pose (10, −10), at rest, not dragging, with no pending animation |
| SpinImage.SpinModal.UpdateTransform | src/components/SpinImageModal.tsx:50-58 | the shown transform is derived afresh from the current rotation |
| SpinImage.SpinModal.Open | src/components/SpinImageModal.tsx:31-37 | opening sets pose (10, −10) and zero velocity and leaves everything else, a running inertia loop included |
| SpinImage.SpinModal.StopInertia | src/components/SpinImageModal.tsx:60-65 | cancels the tracked inertia frame and changes nothing else, so it is idempotent |
| SpinImage.SpinModal.ResetToInitialPosition | src/components/SpinImageModal.tsx:67-98 | cancels inertia, zeroes velocity and starts a reset from the current pose and time |
| SpinImage.SpinModal.StartInertia | src/components/SpinImageModal.tsx:100-131 | replaces any tracked inertia by one fresh loop from the stored velocity and rotation |
| SpinImage.SpinModal.PointerDown | src/components/SpinImageModal.tsx:133-153 | a press within 300 ms of the last starts a reset and clears the press time, leaving the drag flag and last sample; any other press records its time, starts a drag, cancels inertia and keeps the velocity |
| SpinImage.SpinModal.PointerMove | src/components/SpinImageModal.tsx:155-174 | while dragging a move applies one drag step; otherwise nothing changes |
| SpinImage.SpinModal.PointerEnd | src/components/SpinImageModal.tsx:176-183 | while dragging a release ends the drag and starts inertia from the stored velocity; otherwise nothing changes |
| SpinImage.SpinModal.PointerLeave | src/components/SpinImageModal.tsx:233-235 | leaving the card ends a drag exactly as a release does |
| SpinImage.SpinModal.AnimationFrame | src/components/SpinImageModal.tsx:79-127 | one display frame runs the pending reset frame, then the pending inertia frame |
| SheetMap.MaxSheetHeight | src/pages/home/HomeMapScreen.tsx:239 | the sheet's maximum, min(0.85 h, h - 120) |
| SheetMap.DragHeight | src/pages/home/HomeMapScreen.tsx:335-338 | the drag height, start height plus upward travel clamped to [200, max] |
| SheetMap.SnapHeight | src/pages/home/HomeMapScreen.tsx:347 | the release height, 200 strictly below the midpoint and the maximum otherwise |
| SheetMap.ToggleHeight | src/pages/home/HomeMapScreen.tsx:325 | the click height, the maximum up to the midpoint and 200 above it |
| SheetMap.Reclamp | src/pages/home/HomeMapScreen.tsx:241 | the resize clamp min(max(prev, 200), max) |
| SheetMap.ListMaxHeight | src/pages/home/HomeMapScreen.tsx:372 | the list's maximum height, max(sheet - 140, 120) |
| SheetMap.MaxSheetHeightFacts | src/pages/home/HomeMapScreen.tsx:239 | the maximum is 120 px short of the window up to 800 px and 85 % of it from there on; it admits 200 px exactly for windows of at least 320 px |
| SheetMap.DragHeightFacts | src/pages/home/HomeMapScreen.tsx:332-340 | the drag height never exceeds the maximum, is at least 200 when the maximum admits it, follows the pointer exactly inside the range, and is monotone in the pointer's travel |
| SheetMap.SnapHeightFacts | src/pages/home/HomeMapScreen.tsx:341-349 | release snaps to 200 below the midpoint and to the maximum otherwise, to the nearer end, and is idempotent |
| SheetMap.ToggleHeightFacts | src/pages/home/HomeMapScreen.tsx:323-327 | a click goes to the maximum up to the midpoint and to 200 above it, to the farther end; from a snap point two clicks come back |
| SheetMap.TapFlips | src/pages/home/HomeMapScreen.tsx:323-349 | a tap (press, release, click) on a snapped sheet flips it to the other snap point |
| SheetMap.ReclampFacts | src/pages/home/HomeMapScreen.tsx:241 | the resize clamp keeps the height in [200, max] when that range is non-empty, leaves an in-range height alone and is idempotent |
| SheetMap.ListMaxHeightFacts | src/pages/home/HomeMapScreen.tsx:372 | the list's maximum height is at least 120 and otherwise the sheet height minus 140 |
| SheetMap.BottomSheet.constructor | src/pages/home/HomeMapScreen.tsx:30-33 | the sheet starts with the window's maximum and the minimum height, clamped by the first resize pass |
| SheetMap.BottomSheet.Resize | src/pages/home/HomeMapScreen.tsx:237-246 | a resize recomputes the maximum and re-clamps the height, keeping the range invariant |
| SheetMap.BottomSheet.HandlePointerDown | src/pages/home/HomeMapScreen.tsx:328-331 | a press records the start position and height and starts dragging |
| SheetMap.BottomSheet.HandlePointerMove | src/pages/home/HomeMapScreen.tsx:332-340 | during a drag the height depends only on the start height and the current pointer; without a drag nothing changes |
| SheetMap.BottomSheet.HandlePointerUp | src/pages/home/HomeMapScreen.tsx:341-349 | release ends the drag and snaps the height |
| SheetMap.BottomSheet.HandleClick | src/pages/home/HomeMapScreen.tsx:323-327 | a click toggles between the snap points |
| SheetMap.CentreAfterDrag | src/pages/home/HomeMapScreen.tsx:131-149 | the map centre after a drag: clamped coordinate-wise into the Seoul box when it left it |
| SheetMap.MarkerStyleOf | src/pages/home/HomeMapScreen.tsx:185-187 | the marker colour and icon, green/🚶 for paths and orange/🎉 otherwise |
| SheetMap.ToBadge | src/pages/home/HomeMapScreen.tsx:216-224 | the badge opened from a location, with the id and date fallbacks |
| SheetMap.CentreAfterDragFacts | src/pages/home/HomeMapScreen.tsx:120-149 | after a map drag the centre is inside the Seoul box, an inside centre is unchanged, and a corrected centre is the nearest point coordinate by coordinate |
| SheetMap.ToBadgeFacts | src/pages/home/HomeMapScreen.tsx:216-224 | the badge keeps name and position, never has id 0, falls back to today for a missing date, and is green/🚶/산책로 exactly for paths, like its marker |
| AppStoreModel.Merge | src/store/useAppStore.ts:89-90 | the object spread of a partial profile over the profile |
| AppStoreModel.MergeFacts | src/store/useAppStore.ts:89-90 | a profile merge overwrites exactly the fields present and keeps the others; an empty patch changes nothing; merging twice is merging once |
| AppStoreModel.MergeCombine | src/store/useAppStore.ts:89-90 | two merges are one merge with the combined patch |
| AppStoreModel.RemoveById | src/store/useAppStore.ts:97 | the filter that drops the badges with the id |
| AppStoreModel.RemoveByIdFacts | src/store/useAppStore.ts:95-98 | removal keeps exactly the badges with another id and never lengthens the list |
| AppStoreModel.RemoveByIdAppend | src/store/useAppStore.ts:95-98 | removal distributes over concatenation, so order is kept |
| AppStoreModel.RemoveByIdAbsent | src/store/useAppStore.ts:95-98 | a list without the id is returned unchanged |
| AppStoreModel.RemoveByIdIdempotent | src/store/useAppStore.ts:95-98 | removing twice is removing once |
| AppStoreModel.AddThenRemove | src/store/useAppStore.ts:91-98 | appending a badge and removing its id is the same as removing the id alone |
| AppStoreModel.InitialStateFacts | src/store/useAppStore.ts:40-85 | the store starts in light mode with an empty email and three seeded badges of distinct ids |
| AppStoreModel.AppStore.constructor | src/store/useAppStore.ts:40-85 | the store starts signed out and unchecked, with the seeded profile and badges |
| AppStoreModel.AppStore.SetUser | src/store/useAppStore.ts:86 | sets the account and keeps the signed-in flag in step with it |
| AppStoreModel.AppStore.SetIsLoggedIn | src/store/useAppStore.ts:87 | sets the flag alone; the flag stays in step with the account exactly when it matches it |
| AppStoreModel.AppStore.SetHasCheckedSession | src/store/useAppStore.ts:88 | sets only the session-checked flag |
| AppStoreModel.AppStore.SetUserInfo | src/store/useAppStore.ts:89-90 | merges the patch into the profile and changes nothing else |
| AppStoreModel.AppStore.AddBadge | src/store/useAppStore.ts:91-94 | appends at the end with no duplicate check: one longer, and the old list is a prefix |
| AppStoreModel.AppStore.RemoveBadge | src/store/useAppStore.ts:95-98 | filters out the id and changes nothing else |
| AppStoreModel.AppStore.ClearBadges | src/store/useAppStore.ts:99 | empties the badge list and changes nothing else |
| RouteGuards.GuardFor | src/routes/hooks/useRouteRenderer.tsx:22-25 | the guard registry: the two guard names map to their guards, other keys to none |
| RouteGuards.GuardVerdict | src/routes/hooks/useRouteRenderer.tsx:8-20 | what a guard renders instead of its children: nothing while unchecked, a redirect, or none |
| RouteGuards.Show | src/routes/hooks/useRouteRenderer.tsx:8-20 | what an element tree renders for a session |
| RouteGuards.GuardDecisionTable | src/routes/hooks/useRouteRenderer.tsx:8-20 | both guards show nothing while unchecked; requireUser sends a visitor to /login and redirectIfAuthenticated a user to /; at most one renders its children, exactly one once checked |
| RouteGuards.GuardSequence | src/routes/hooks/useRouteRenderer.tsx:79-86 | the reduceRight fold wrapping the element in the key's guard from the last key to the first |
| RouteGuards.KnownGuardsSnoc | src/routes/hooks/useRouteRenderer.tsx:79-86 | the known guards of a list with one more key gain that key's guard at the end, if it names one |
| RouteGuards.NestSnoc | src/routes/hooks/useRouteRenderer.tsx:79-86 | wrapping the element in a guard first is nesting that guard innermost |
| RouteGuards.GuardSequenceNests | src/routes/hooks/useRouteRenderer.tsx:79-86 | the right-to-left fold nests the known guards in list order, first outermost, skipping unknown keys; an empty list leaves the element |
| RouteGuards.UnknownKeysVanish | src/routes/hooks/useRouteRenderer.tsx:81-84 | a list of unknown keys contributes no guard |
| RouteGuards.ShowNested | src/routes/hooks/useRouteRenderer.tsx:79-86 | a guarded screen renders exactly when every guard lets it through; otherwise the first stopping guard's verdict shows |
| RouteGuards.RenderRouteElement | src/routes/hooks/useRouteRenderer.tsx:88-100 | the screen with its props, inside its guards, inside the layout when asked |
| RouteGuards.RenderRouteElementShape | src/routes/hooks/useRouteRenderer.tsx:88-100 | a route is its screen with its props (or none), inside its guards in list order, inside the layout outermost exactly when asked |
| RouteGuards.ProtectedRoute | src/routes/hooks/useRouteRenderer.tsx:8-13 | a requireUser route shows its screen only to a signed-in user of a checked session, nothing while unchecked, and /login otherwise |
| RouteGuards.OnAuthStateChange | src/routes/hooks/useRouteRenderer.tsx:45-55 | stores the account, the email or "", marks the session checked, keeps login consistent, and navigates to /login exactly when there is no account; afterwards neither guard is blank, and without an account requireUser redirects to /login |
| RouteGuards.OnInitialSession | src/routes/hooks/useRouteRenderer.tsx:35-41 | stores the account, the email only when present, marks the session checked, and does not navigate |
| RouteGuards.FlipThemeInvolution | src/routes/hooks/useRouteRenderer.tsx:75 | toggling always changes the theme and toggling twice restores it |
| RouteGuards.ToggleTheme | src/routes/hooks/useRouteRenderer.tsx:75 | flips the theme and changes nothing else |
| RouteGuards.HandleOnboardingComplete | src/routes/hooks/useRouteRenderer.tsx:66-69 | stores nickname and interests only and navigates to / |
| RouteGuards.HandleLogout | src/routes/hooks/useRouteRenderer.tsx:70-74 | forgets the account, signs out in the store and navigates to /login |
| GeminiImage.TagText | src/services/geminiImageService.ts:115 | the keywords, the tags joined with ", " or empty |
| GeminiImage.CreateBadgePrompt | src/services/geminiImageService.ts:114-145 | the prompt from one of the two templates, the plain one by default |
| GeminiImage.JoinSnoc | src/services/geminiImageService.ts:115 | joining one more tag appends the separator and the tag |
| GeminiImage.JoinLength | src/services/geminiImageService.ts:115 | the joined text is as long as the tags plus one separator between each pair |
| GeminiImage.TagTextFacts | src/services/geminiImageService.ts:115 | the keywords are always the ", "-join of the tags (the empty case agrees); one tag is itself |
| GeminiImage.PromptTemplate | src/services/geminiImageService.ts:114-145 | the prompt starts "Transform this photo" exactly with a source image and "Create a beautiful" exactly without |
| GeminiImage.PromptContents | src/services/geminiImageService.ts:114-145 | both templates contain the description and the keywords in full at fixed places |
| GeminiImage.MimeSearch | src/services/geminiImageService.ts:184 | the leftmost match of /data:([^;]+);/ at or after a position |
| GeminiImage.MimeType | src/services/geminiImageService.ts:182-188 | the MIME type of a data URL, none for other URLs |
| GeminiImage.FirstFrom | src/services/geminiImageService.ts:184 | the result is the first index at or after the start holding the character, or none exists |
| GeminiImage.MimeSearchSound | src/services/geminiImageService.ts:184-185 | a found MIME type is captured between a "data:" and a ';'; with no ';' nothing is found |
| GeminiImage.MimeTypeFacts | src/services/geminiImageService.ts:182-188 | no type unless the URL starts with "data:"; a found type is non-empty and free of ';'; a non-empty text before the first ';' of a data URL is found |
| GeminiImage.Base64Search | src/services/geminiImageService.ts:153 | the leftmost match of /base64,(.+)/ at or after a position |
| GeminiImage.UrlToBase64 | src/services/geminiImageService.ts:150-177 | the payload of a data URL, else of what the fetched blob reads back as, else the conversion error |
| GeminiImage.DataUrl | src/services/geminiImageService.ts:103 | the data URL built from a MIME type and a payload |
| GeminiImage.RunEnd | src/services/geminiImageService.ts:153 | the run of characters `.` matches ends at the first line terminator or at the end |
| GeminiImage.Base64SearchSkips | src/services/geminiImageService.ts:153 | a leftmost search past positions that do not match goes on from the next one |
| GeminiImage.NoEarlyBase64 | src/services/geminiImageService.ts:153 | in a built data URL whose MIME type lacks "base64," no match starts before the service's own |
| GeminiImage.DataUrlRoundTrip | src/services/geminiImageService.ts:152-156 | a data URL built as at line 103 gives back its MIME type and its payload |
| GeminiImage.LastInline | src/services/geminiImageService.ts:81-96 | reference definition: the truthy values of the last chunk carrying inline data |
| GeminiImage.LastInlineIgnoresTail | src/services/geminiImageService.ts:81-96 | chunks without inline data after the deciding one change nothing |
| GeminiImage.LastInlineTruthy | src/services/geminiImageService.ts:89-90 | the kept image data and MIME type are never empty strings |
| GeminiImage.CollectImage | src/services/geminiImageService.ts:78-96 | the loop throws exactly when a chunk has an empty candidate list, and otherwise yields the last chunk's inline data (empty becomes null) |
| GeminiImage.Finish | src/services/geminiImageService.ts:98-108 | the check after the loop and the result built from both values |
| GeminiImage.FinishRoundTrip | src/services/geminiImageService.ts:98-108 | the result succeeds exactly when both values are present, and its data URL reads back as its MIME type and payload |
| GeminiImage.GenerateBadgeImage | src/services/geminiImageService.ts:21-108 | no key fails before any request; a source image is sent inline typed by its MIME type or image/png; a failed conversion sends nothing; the result is the stream's last image or the matching error |

## Left out

- The DOM is left out because it has no behaviour to verify: JSX, class names, styles, portals, `document.body.style.overflow`, pointer capture, Naver map and marker objects, and HTML strings. `SpinModal.shown` stands for the image transform.
- React and zustand semantics are left out:
  - render batching and effect ordering;
  - stale closures, such as `maxSheetHeight` captured by the sheet's drag listeners, and `rotX`/`velX` read from the render in `startInertia`.

  Every state write is an immediate assignment.
- `SetUserInfo`: a `Partial` that carries a key explicitly set to `undefined` would write `undefined` into the profile. The model's patch only has present or absent fields.
- Real-time scheduling is replaced by the explicit `AnimationFrame(now)`. A second `performance.now()` read inside one handler is taken to equal the first.
- Concurrency in the sheet is left out: a second press on the handle during a drag registers a second pair of window listeners, and the model keeps one drag.
- Floating point is left out: IEEE-754 rounding and `Math.pow`. The cube is written as a product.
- `InertiaTerminates`: its bound is linear (more than 49000 times the larger start speed), not the logarithmic frame count, because friction's logarithm is not available over exact reals.
- `MimeTypeFacts`: it shows that a found type is some capture between "data:" and ';', not that it is the leftmost one. `MimeSearch` itself is the leftmost search.
- Network and SDK calls are left out:
  - the Gemini client and the streaming request (the stream is the `chunks` parameter);
  - `fetch` and `FileReader` (what the blob reads back as is the `readBack` parameter, and a failure there is one generic `Failure`);
  - `supabase.auth.getSession`, `signOut` and the subscription (sessions are parameters, and `HandleLogout` models the code after `signOut` resolves).
- The `onProgress` callbacks and the text progress messages of the stream are left out; they carry no state.
- `GuardFor`: the source looks keys up on a plain object, so a key naming an inherited member such as "toString" or "constructor" is found there and used as a component, and rendering breaks. The model treats every key other than the two guard names as unknown and skips it. No route uses such a key.
- `getProps(context)` is evaluated outside the model; a route carries the props it produced.
- `parseInt` and `new Date().toLocaleDateString('ko-KR')` are parameters of `ToBadge`.
- src/utils/loadNaverMaps.ts, src/types/naver-maps.d.ts and src/services/locationService.ts are not part of this model. They hold script loading, type declarations and pass-through queries.
