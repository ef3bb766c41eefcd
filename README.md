# Rocky Cleanz website: contact endpoint and interactive sections in Dafny

This project models the logic of the Rocky Cleanz marketing site, with rendering, animation, timers, the DOM and the mail library taken away:

- **The contact endpoint** (`POST /api/contact`, module `ContactRoute`). It checks that the five fields name, email, phone, service and description are present and non-empty. If one is missing it answers 400 "All fields are required" and sends nothing. Otherwise it renders the fields, raw, into a fixed HTML email. It sends that email once, from the configured `EMAIL_USER` to the fixed address `probinz2025@gmail.com`, with the subject "New Contact Form Submission - " followed by the service. It answers 200 "Email sent successfully" when the send succeeds. It answers 500 "Failed to send email" when the send fails or the body cannot be read. `Handle` takes the parsed body, `EMAIL_USER` and the outcome of the send as inputs. It returns the response and the mail handed to the transport; `None` means no send was attempted.
- **The contact form** (class `ContactFormComponent.Contact`). It holds the five fields and the flags `isSubmitting` and `isSubmitted`. Its events are: edit one field, submit (ignored while a request is in flight, because the button is disabled), the response (ok, not ok or a network error), and the five-second timer that hides the success notice.
- **The before/after gallery** (class `BeforeAfterComponent.BeforeAfter`). An index cycles over the four image pairs, and a slider position is clamped to [0, 100]. Every navigation puts the slider back at 50.
- **The social-video feed** (class `SocialMediaComponent.SocialMedia`). An index over the two videos moves one step at a time, without wrap-around, on wheel, swipe and arrow-key events, and jumps directly on a dot click. A debounce flag blocks the wheel until its timer fires. A play flag is toggled by space. The feed also keeps the touch-end listeners that touch starts have registered and that have not run yet.
- **The services section** (class `ServicesComponent.Services`). It is a single-open accordion over the four service cards, and a header icon rotates modulo 6 on a timer.

Timers and network replies are events (methods) here, not time.

The handler takes a single `service` string and interpolates it raw into the body and the subject. It has no lookup from service ids to labels and does no escaping.

## Model

| member | source | states |
|---|---|---|
| `ContactRoute.Validate` | src/app/api/contact/route.ts:49 | The guard accepts the body exactly when every one of the five fields, asked by name, is present and is a non-empty string. |
| `ContactRoute.OneMissingFieldRejects` | src/app/api/contact/route.ts:46-54 | The guard rejects the body exactly when some field is missing or empty: a single one is enough. |
| `ContactRoute.FormDataOf` | src/app/api/contact/route.ts:45-46 | The form data taken from an accepted body is exactly what the body carried: serialising it again gives back the same fields. |
| `ContactRoute.Template` | src/app/api/contact/route.ts:14-39 | The email body starts with the fixed head and ends with the fixed footer, and its length is the fixed overhead plus the fields' lengths: nothing but the fields is added to the fixed text. |
| `ContactRoute.TemplateLayout` | src/app/api/contact/route.ts:14-39 | The five fields stand verbatim between the pieces of fixed text, in the order name, email, phone, service, description; each piece starts where the ones before it end. |
| `ContactRoute.TemplateContainsFields` | src/app/api/contact/route.ts:21-29 | The body contains name, email, phone, service and description verbatim. |
| `ContactRoute.TemplateIsAmbiguous` | src/app/api/contact/route.ts:21-22 | Nothing is escaped: a name that contains the markup between the name and email lines gives the same body as a different pair of name and email. |
| `ContactRoute.TemplateInjectiveForLengths` | src/app/api/contact/route.ts:14-39 | Two submissions whose fields have the same lengths and that give the same body are the same submission. |
| `ContactRoute.Subject` | src/app/api/contact/route.ts:69 | The subject is the fixed prefix "New Contact Form Submission - " followed by the service, and nothing else. |
| `ContactRoute.SubjectDeterminesService` | src/app/api/contact/route.ts:69 | Two subjects are equal exactly when their services are: the service can be read back from the subject. |
| `ContactRoute.MailFor` | src/app/api/contact/route.ts:66-71 | The mail goes to the fixed recipient, from EMAIL_USER. Its subject is `Subject` of the service: the fixed prefix "New Contact Form Submission - " followed by the service. Its html is `Template` of the data, so it contains all five fields verbatim. |
| `ContactRoute.Handle` | src/app/api/contact/route.ts:42-87 | An unreadable or null body gives 500 "Failed to send email" with no send. A body with a missing or empty field gives 400 "All fields are required" with no send. Otherwise exactly one mail is sent, to the fixed recipient, from EMAIL_USER, with `Subject` of the service and `Template` of the data (`MailFor`), and the response is 200 "Email sent successfully" when it was delivered and 500 otherwise. 400 happens exactly when validation fails, 200 exactly when a send was made and delivered. |
| `ContactFormComponent.With` | src/components/Contact.tsx:50-56 | Changing a field sets that field to the new value and leaves every other field as it was. |
| `ContactFormComponent.FormAcceptedIffComplete` | src/app/api/contact/route.ts:49-54 | What the form sends passes the endpoint's guard exactly when every field is filled in; the form's empty fields, such as the placeholder service "", lead to a 400. |
| `ContactFormComponent.Contact.constructor` | src/components/Contact.tsx:33-41 | Initially all five fields are "" and both flags are false. |
| `ContactFormComponent.Contact.HandleInputChange` | src/components/Contact.tsx:50-56 | Only the named field changes, the flags do not, and the service field keeps one of the drop-down's values {"", concrete-pressure-washing, bin-cleaning, carpet-cleaning, junk-removal, other}. |
| `ContactFormComponent.Contact.Submit` | src/components/Contact.tsx:59-70 | The button is disabled while `isSubmitting` holds (`SubmitEnabled`, src/components/Contact.tsx:332), and a disabled button sends nothing. An enabled button sets `isSubmitting` and sends the current form data. Either way the button is disabled afterwards, so at most one request is in flight until the response arrives. The form data and the success flag do not change. |
| `ContactFormComponent.Contact.HandleResponse` | src/components/Contact.tsx:72-93 | On an ok response `isSubmitting` clears, `isSubmitted` is set and the form is reset to empty. On a non-ok response or a network error `isSubmitting` clears and the form data and `isSubmitted` are left as they were. |
| `ContactFormComponent.Contact.SuccessTimerFires` | src/components/Contact.tsx:84 | The timer clears the success flag and changes nothing else. |
| `BeforeAfterComponent.NextIndex` | src/components/BeforeAfter.tsx:46-49 | The next index stays in [0, n) and is 0 exactly when the current index is the last one. |
| `BeforeAfterComponent.PrevIndex` | src/components/BeforeAfter.tsx:53-56 | The previous index stays in [0, n) and is n-1 exactly when the current index is 0. |
| `BeforeAfterComponent.StepsAreModular` | src/components/BeforeAfter.tsx:46-57 | Next is adding 1 modulo n, previous is subtracting 1 modulo n. |
| `BeforeAfterComponent.NextPrevInverse` | src/components/BeforeAfter.tsx:46-57 | Next then previous, and previous then next, return to the starting index. |
| `BeforeAfterComponent.NextTimesIsModular` | src/components/BeforeAfter.tsx:46-49 | k presses of next advance the index by k modulo n. |
| `BeforeAfterComponent.FullCycle` | src/components/BeforeAfter.tsx:46-49 | n presses of next visit every slide and come back to the starting one. |
| `BeforeAfterComponent.Clamp` | src/components/BeforeAfter.tsx:66 | The result is in [0, 100]: a value inside is kept, a value below becomes 0 and a value above becomes 100. |
| `BeforeAfterComponent.BeforeAfter.constructor` | src/components/BeforeAfter.tsx:13-14 | The gallery starts at index 0 with the slider at 50. |
| `BeforeAfterComponent.BeforeAfter.GoToSlide` | src/components/BeforeAfter.tsx:41-44 | A thumbnail click shows that slide and resets the slider to 50. |
| `BeforeAfterComponent.BeforeAfter.NextSlide` | src/components/BeforeAfter.tsx:46-51 | The index becomes the next one, with wrap-around, the slider is reset to 50, and the index stays in range. |
| `BeforeAfterComponent.BeforeAfter.PrevSlide` | src/components/BeforeAfter.tsx:53-58 | The index becomes the previous one, with wrap-around, the slider is reset to 50, and the index stays in range. |
| `BeforeAfterComponent.BeforeAfter.HandleMouseMove` | src/components/BeforeAfter.tsx:61-68 | The slider moves to the clamped mouse position only while `buttons == 1`; otherwise nothing changes. The index never changes. |
| `BeforeAfterComponent.BeforeAfter.HandleTouchMove` | src/components/BeforeAfter.tsx:71-76 | The slider moves to the clamped touch position; the index does not change. |
| `SocialMediaComponent.Move` | src/components/SocialMedia.tsx:62-68 | One navigation step stays in [0, n) and changes the index by at most 1. It moves down exactly when asked to and not at the last index, and up exactly when asked to and not at index 0. |
| `SocialMediaComponent.MoveIsClampedStep` | src/components/SocialMedia.tsx:62-68 | A step is the index plus the sign of the request, clamped to [0, n-1]; there is no wrap-around. |
| `SocialMediaComponent.IsSwipe` | src/components/SocialMedia.tsx:89 | A touch is a swipe exactly when it lasted under 300 ms and the distance travelled, in either direction, is more than 50 px. |
| `SocialMediaComponent.SwipeStep` | src/components/SocialMedia.tsx:86-97 | The corrected listener, which checks the bound against the index it updates. A touch counts only if it lasted under 300 ms and travelled more than 50 px; then it is one navigation step in its direction, and otherwise the index is unchanged. |
| `SocialMediaComponent.SwipeAll` | src/components/SocialMedia.tsx:75-101 | With the corrected listener, which checks the bound against the current index, running every pending touch-end listener keeps the index in [0, n) and moves it by at most one per listener. |
| `SocialMediaComponent.SwipeStepAsWritten` | src/components/SocialMedia.tsx:81-100 | The listener as written moves the index by at most one. It moves the current index up exactly on a swipe up when the index captured at touch start was below the last one, and down exactly on a swipe down when the captured index was above 0, wherever the current index is. |
| `SocialMediaComponent.SwipeAllAsWritten` | src/components/SocialMedia.tsx:75-101 | Running the pending listeners as written moves the index by at most one per listener, with no bound on the current index. |
| `SocialMediaComponent.StaleSwipeOvershoots` | src/components/SocialMedia.tsx:75-101 | Two pending listeners that both saw index 0 take the index to 2 as written, outside the two videos; the corrected listeners stop at 1. |
| `SocialMediaComponent.SingleSwipeAgrees` | src/components/SocialMedia.tsx:86-97 | With a single pending listener that saw the current index, the listener as written and the corrected one agree. |
| `SocialMediaComponent.ShowsScrollIndicator` | src/components/SocialMedia.tsx:304 | The scroll hint is shown exactly when a step down would move the index. |
| `SocialMediaComponent.SocialMedia.constructor` | src/components/SocialMedia.tsx:13-15 | The feed starts at index 0, playing, with no wheel debounce and no pending listener. |
| `SocialMediaComponent.SocialMedia.HandleWheel` | src/components/SocialMedia.tsx:54-72 | While the debounce flag is set, or when the feed is off screen, nothing changes. Otherwise the flag is set, even if the index cannot move, and the index takes one navigation step in the wheel's direction. |
| `SocialMediaComponent.SocialMedia.InteractionTimerFires` | src/components/SocialMedia.tsx:71 | The debounce timer clears the flag and changes nothing else. |
| `SocialMediaComponent.SocialMedia.HandleTouchStart` | src/components/SocialMedia.tsx:75-79 | A touch start registers one more touch-end listener, remembering position, time and the current index. |
| `SocialMediaComponent.SocialMedia.HandleTouchEnd` | src/components/SocialMedia.tsx:81-100 | A touch end runs every pending listener once, in order, and removes them all. The index becomes `SwipeAll` of the old index and stays in range. |
| `SocialMediaComponent.SocialMedia.TogglePlayPause` | src/components/SocialMedia.tsx:37-51 | A paused video starts and `isPlaying` becomes true; a playing video pauses and it becomes false; without a video element nothing changes. |
| `SocialMediaComponent.SocialMedia.HandleKeyDown` | src/components/SocialMedia.tsx:104-115 | ArrowDown and ArrowUp take one navigation step, so ArrowDown at the last index and ArrowUp at 0 change nothing. Space toggles play. Other keys change nothing. |
| `SocialMediaComponent.SocialMedia.HandleDotClick` | src/components/SocialMedia.tsx:289-292 | A dot click sets the index to the dot's index. |
| `SocialMediaComponent.SocialMedia.AutoPlayStarted` | src/components/SocialMedia.tsx:171-178 | The auto-play timer after an index change sets `isPlaying`. |
| `SocialMediaComponent.SocialMedia.PlayRejected` | src/components/SocialMedia.tsx:173-176 | A refused play clears `isPlaying`. |
| `ServicesComponent.Toggle` | src/components/Services.tsx:234-236 | Toggling gives no open card exactly when `id` was the open one, and otherwise opens `id`. |
| `ServicesComponent.IsActive` | src/components/Services.tsx:323 | A card is shown expanded exactly when a click on it would close it, leaving no card open. |
| `ServicesComponent.AtMostOneActive` | src/components/Services.tsx:323 | Among cards with distinct ids at most one is shown expanded, and exactly one when the open id is among them. |
| `ServicesComponent.ServiceIdsDistinct` | src/components/Services.tsx:29-95 | The four service ids are distinct, so for any open id at most one card is expanded. |
| `ServicesComponent.ToggleTwice` | src/components/Services.tsx:234-236 | Toggling the same card twice from closed returns to closed; from the same card open, it returns to open. |
| `ServicesComponent.ToggleReplaces` | src/components/Services.tsx:235 | Toggling a card other than the open one opens the new one and closes the old one. |
| `ServicesComponent.NextIcon` | src/components/Services.tsx:227 | The next icon stays in [0, 6): it is one more, or 0 after the last. |
| `ServicesComponent.IconAfterIsModular` | src/components/Services.tsx:225-228 | After k ticks from icon i the icon shown is (i + k) mod 6. |
| `ServicesComponent.IconPeriodic` | src/components/Services.tsx:211-228 | Every 6 ticks the rotation shows the same icon again; it follows from the closed form. |
| `ServicesComponent.Services.constructor` | src/components/Services.tsx:206-208 | Initially no card is open and icon 0 is shown. |
| `ServicesComponent.Services.ToggleService` | src/components/Services.tsx:234-236 | A click sets the open card by `Toggle` and leaves the icon alone. |
| `ServicesComponent.Services.RotateIcon` | src/components/Services.tsx:225-231 | A timer tick advances the icon by `NextIcon` and leaves the open card alone. |

## Findings

| source | as written | input that shows it | evidently intended | confidence | as-written member | corrected member |
|---|---|---|---|---|---|---|
| src/components/SocialMedia.tsx:81-97 | The touch-end listener checks the bound against `currentVideoIndex` as captured at touch start, then applies `prev => prev + 1` to the index as it is when the listener runs. Every touch start adds a `once` listener on the document, and one touch end runs all of them. | Two fingers land in turn on video 0 of 2, at 0 ms and at 10 ms. Each touch start reads `touches[0]`, the first finger, so both listeners remember y = 400, and both see index 0. The first finger lifts at y = 300 within 200 ms, so both are swipes up and both pass the stale check `0 < 1`. The index goes 0 → 1 → 2, past the last video. | The index stays in [0, length-1]: the bound is checked against the index being updated. | medium, not executed | `SocialMediaComponent.StaleSwipeOvershoots` | `SocialMediaComponent.SwipeAll` |

The class `SocialMediaComponent.SocialMedia` uses the corrected listener. The listener as written is `SwipeStepAsWritten` / `SwipeAllAsWritten`.

## Left out

- Rendering, animation, CSS and the server-side `mounted` fallbacks: presentation only.
- The mail library and the process environment: creating the transport and `sendMail` are replaced by the `transport` input of `Handle`, and `EMAIL_USER` is an input. The password `EMAIL_PASS` only reaches the transport, so it is not modelled. Console logging is not modelled.
- Non-string JSON values in the request body (numbers, booleans, objects): a field is modelled as a string or absent. How JavaScript judges other values truthy and turns them into text is not modelled.
- BeforeAfterComponent.BeforeAfter.HandleMouseMove: the position is a whole percentage handed in by the caller. The floating-point conversion `(x / rect.width) * 100` and the NaN it gives for a zero-width image are not modelled.
- BeforeAfterComponent.BeforeAfter.HandleTouchMove: the same holds for the touch position (src/components/BeforeAfter.tsx:72-75): it is a whole percentage handed in by the caller, and the floating-point conversion and its NaN for a zero-width image are not modelled.
- SocialMediaComponent.SocialMedia.HandleTouchStart, SocialMediaComponent.SocialMedia.HandleTouchEnd and SocialMediaComponent.SocialMedia.HandleWheel: touch positions and the wheel delta are whole pixels here, while the browser reports `clientY` and `deltaY` as floating-point numbers. Only their sign, their difference and the comparison with 50 are used.
- SocialMediaComponent.SocialMedia.HandleWheel: it reads the current index and debounce flag. The listener registered by the effect at src/components/SocialMedia.tsx:130-151 tests the values captured at its last registration, and is registered again only after a render. A second wheel event that arrives before that can pass the stale debounce and bound checks; this window is not modelled.
- SocialMediaComponent.SocialMedia.HandleTouchEnd: it models the corrected listener (see Findings), not the one as written.
- Video element side effects: `play()` and `pause()`, `currentTime`, pausing the other videos, cancelling the pending auto-play timer, restarting an ended video and the mobile-size resize listener. Only their effect on `isPlaying` is kept, as the events `AutoPlayStarted` and `PlayRejected`.
- Timers are events: the 5 s success timer, the 500 ms wheel debounce, the 100 ms auto-play delay and the 2 s icon rotation fire when their method is called. Nothing models how long they take or whether they overlap.
- The browser's `required` checks on the form fields: they belong to the browser, not to the component.
- The error message the form logs after a failed response is not modelled; the form's state does not depend on it.
- Hero, Header, Footer, WhyChooseUs, the page layout, the animated entry page, the QR-code generator and the two setup scripts: they contain no logic beyond DOM scrolling, static content or library calls.

