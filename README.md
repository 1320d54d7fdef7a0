# Portfolio site client logic: a verified Dafny model

The portfolio site is a single page of static sections (home, skills,
experience, projects, goals, contact). It has a fixed navigation header and
a contact form. This project models the two parts of it that hold real
client logic:

- **The contact form** (`ContactForm.tsx`).
  - `validateForm` is an ordered, short-circuiting chain of four checks: the
    name is not blank, the e-mail is not blank, the e-mail matches
    `^[^\s@]+@[^\s@]+\.[^\s@]+$`, and the message is not blank.
  - `handleChange` updates one field.
  - `handleSubmit` validates. When validation passes, it sends two e-mail
    relay dispatches in sequence (an acknowledgement to the sender, then a
    notification to the site owner). It then shows a success or failure
    status, and clears the fields only when both dispatches succeed.
- **The navigation header** (`Header.tsx`).
  - `handleScroll` sets the "scrolled" flag when the scroll offset is past
    50 px.
  - It then makes active the first section in page order whose rectangle
    straddles the line 100 px below the viewport top. When no section does,
    the previous active section is kept.
  - `scrollToSection` scrolls to `top + scrollY - 80`. When the mobile menu
    is open, it first closes the menu and does the scroll later, from a
    300 ms timer. A missing element makes it do nothing.
  - The menu button flips the mobile menu.

Modules:

- `Wrappers` (`wrappers.dfy`): `Option`.
- `JsString` (`js_string.dfy`): the white-space set shared by JavaScript's
  `\s` and `String.prototype.trim`, and `trim` itself.
- `EmailPattern` (`email_pattern.dfy`): the e-mail regular expression,
  written three ways and proved equivalent:
  - `Matches`: the regular expression's own meaning, a split into run `@`
    run `.` run;
  - `DescribedShape`: a plain description;
  - `IsValidEmail`: an executable character-by-character scanner (a finite
    automaton), which the validator uses.
- `Contact` (`contact_form.dfy`):
  - `ValidateForm`, a pure function that returns the first failing check;
  - class `ContactForm`, holding the fields `formData`, `status` and
    `isSubmitting`, with `HandleChange` and `HandleSubmit`.
- `Navigation` (`navigation.dfy`):
  - the ordered `Sections`, and the find-first `FirstStraddling`;
  - `NextActive`, which keeps the previous id when nothing straddles;
  - `ScrollTarget`;
  - class `Header`, holding `activeSection`, `isScrolled`,
    `isMobileMenuOpen` and the queue of pending deferred scrolls, with
    `HandleScroll`, `ScrollToSection`, `RunDeferredScroll` and `ToggleMenu`.

Inputs that stand in for the outside world:

- The relay's answer to each dispatch is an `Outcome` parameter of
  `HandleSubmit` (`Delivered` or `Rejected`).
- Each dispatch the method makes is returned in order. It records the
  template, the payload, and what the form showed while the dispatch was in
  flight (the `isSubmitting` flag and the status line).
- The document is a `Layout`: a map from each section id that has an element
  to its bounding rectangle at that moment. A missing key is an element that
  `getElementById` does not find.
- The scroll offset is a parameter.
- The 300 ms timer is an entry in `pendingScrolls`. `RunDeferredScroll`
  runs the oldest entry. It is given the rectangle top of that entry's
  element as measured when the timer fires.

Notes on what the code does:

- The status is `{type: null | "success" | "error", message}` plus an
  `isSubmitting` flag, with no separate validating or sending state.
- `scrollToSection` takes the deferred path whenever the mobile menu is open,
  whichever button was clicked.
- A second navigation while a timer is pending scrolls at once when the menu
  is closed, or queues another deferred scroll when the menu was reopened.
  Either way the pending timer is not cancelled, because the code never
  calls `clearTimeout`.

## Model

| member | source | states |
|---|---|---|
| `JsString.TrimSpec` | my-portfolio/src/components/ContactForm.tsx:50 | `trim()` returns a slice of the input with only white space around it; the slice neither starts nor ends with white space; it is empty exactly when the input is all white space |
| `JsString.BlankIffAllWhitespace` | my-portfolio/src/components/ContactForm.tsx:50 | the test `!s.trim()` holds exactly when every character of `s` is white space |
| `EmailPattern.MatchesIffDescribedShape` | my-portfolio/src/components/ContactForm.tsx:64 | the regex matches exactly when all of these hold: the address has no white space; it has exactly one `@`, with something before it; after the `@` there is a `.` with at least one character on each side (more dots are allowed) |
| `EmailPattern.IsValidEmailIffMatches` | my-portfolio/src/components/ContactForm.tsx:64 | the character-level scanner accepts exactly the strings that the regex matches |
| `EmailPattern.IsValidEmailIffDescribedShape` | my-portfolio/src/components/ContactForm.tsx:64 | the scanner accepts exactly the addresses of the described shape |
| `Contact.FormData.With` | my-portfolio/src/components/ContactForm.tsx:44-47 | the named field takes the new value and the other two keep theirs |
| `Contact.ValidateFormReportsFirstFailure` | my-portfolio/src/components/ContactForm.tsx:49-79 | validation passes exactly when none of the four checks fails; otherwise it reports a failing check, and no check earlier in the order name, email, email shape, message fails |
| `Contact.BlankNameRejected` | my-portfolio/src/components/ContactForm.tsx:50-56 | a name made only of white space fails validation with "Please enter your name" |
| `Contact.BlankMessageRejected` | my-portfolio/src/components/ContactForm.tsx:71-77 | given a good name and address, a message made only of white space fails with "Please enter your message" |
| `Contact.SpacedEmailRejected` | my-portfolio/src/components/ContactForm.tsx:57-70 | an address that is not blank but holds white space anywhere passes the emptiness check and fails the shape check, because the regex sees the untrimmed text |
| `Contact.PaddedEmailRejected` | my-portfolio/src/components/ContactForm.tsx:57-70 | `" a@b.com"` is rejected as "Please enter a valid email address" |
| `Contact.PaddedEmailTrimsToValid` | my-portfolio/src/components/ContactForm.tsx:64 | `" a@b.com"` trims to `"a@b.com"`, which the regex accepts, yet the untrimmed address is rejected |
| `Contact.EmptyNameScenario` | my-portfolio/src/components/ContactForm.tsx:50-56 | an empty name fails first, even when the address and message are good |
| `Contact.MalformedEmailScenario` | my-portfolio/src/components/ContactForm.tsx:64-70 | `"not-an-email"` fails the shape check |
| `Contact.ValidScenario` | my-portfolio/src/components/ContactForm.tsx:49-79 | `{"Jo", "a@b.com", "hi"}` passes all four checks |
| `Contact.ContactForm.constructor` | my-portfolio/src/components/ContactForm.tsx:8-17 | the form starts with empty fields, no status and not submitting |
| `Contact.ContactForm.HandleChange` | my-portfolio/src/components/ContactForm.tsx:44-47 | one field is updated; status and `isSubmitting` are untouched |
| `Contact.ContactForm.HandleSubmit` | my-portfolio/src/components/ContactForm.tsx:81-123 | on a validation failure: no dispatch, fields and `isSubmitting` unchanged, and the status is that check's error. On success: the acknowledgement is sent, and the notification is sent only if the acknowledgement was delivered; both carry the form's `{from_name, from_email, message}` and go out with `isSubmitting` true and the status cleared. `isSubmitting` is false at the end. Both delivered: the success message and empty fields. Otherwise: the failure message and the fields kept |
| `Contact.PartialFailureScenario` | my-portfolio/src/components/ContactForm.tsx:88-122 | a valid form whose notification is rejected makes exactly two dispatches, the acknowledgement then the notification, both carrying the form's data; it ends with the failure message, the input kept and `isSubmitting` false |
| `Navigation.FirstStraddling` | my-portfolio/src/components/Header.tsx:27-36 | the find-first: returns the index of the first section whose element exists and has `top <= 100 && bottom >= 100`, or none exactly when no section does; missing elements are skipped |
| `Navigation.NextActiveIsFirstStraddling` | my-portfolio/src/components/Header.tsx:27-40 | the new active id is the first straddling section in page order; when none straddles, the previous id is kept; a changed id is always one of the sections |
| `Navigation.ActiveAlwaysASection` | my-portfolio/src/components/Header.tsx:8-40 | starting from a section id (the initial `"home"`), the active id stays one of the six sections over any series of scroll events |
| `Navigation.ScrollTargetPlacesSectionBelowHeader` | my-portfolio/src/components/Header.tsx:65-71 | scrolling to `top + scrollY - 80` puts the section's top edge 80 px below the viewport top; the section then straddles the activation line exactly when it is at least 20 px tall |
| `Navigation.Header.constructor` | my-portfolio/src/components/Header.tsx:11-13 | the header starts on `"home"`, not scrolled, with the menu closed and nothing pending |
| `Navigation.Header.HandleScroll` | my-portfolio/src/components/Header.tsx:22-41 | `isScrolled` is `scrollY > 50`; the active id becomes `NextActive` of the old one; the menu and pending scrolls are untouched; the active id stays a section |
| `Navigation.Header.ScrollToSection` | my-portfolio/src/components/Header.tsx:55-75 | a missing element: nothing changes and nothing scrolls. Menu open: the menu closes, nothing scrolls now, and one deferred scroll to the id is queued. Menu closed: an immediate scroll to `top + scrollY - 80`, and the rest is unchanged |
| `Navigation.Header.RunDeferredScroll` | my-portfolio/src/components/Header.tsx:64-68 | the oldest pending scroll runs: it leaves the queue and scrolls to `top + scrollY - 80`, using the rectangle measured when it fires |
| `Navigation.Header.ToggleMenu` | my-portfolio/src/components/Header.tsx:157 | the menu state is negated and nothing else changes |
| `Navigation.ToggleTwice` | my-portfolio/src/components/Header.tsx:157 | two presses of the menu button restore the menu state |
| `Navigation.NavigateFromOpenMenu` | my-portfolio/src/components/Header.tsx:59-68 | from an open menu, a click scrolls nothing at once; the later scroll uses the rectangle and offset of the time it fires |

## Left out

- The e-mail relay (`emailjs.send`) and its environment variables (service,
  template and key ids). These are network calls. Each dispatch is only its
  template, its payload and an outcome given as a parameter.
- Contact.ContactForm.HandleSubmit: the model treats it as one atomic step,
  with nothing between its two `await`s. In the code the inputs stay enabled
  while the dispatches run; only the submit button is disabled. The code's
  closure uses the data of the moment of submission, as the model does. So
  a keystroke during the dispatches would be lost when the success path
  resets the fields; the model cannot show that.
- Contact.ContactForm.HandleChange: takes one of the three inputs by name.
  The form has no other inputs. So the case where `[name]: value` adds a new
  key does not arise.
- The JavaScript string encoding. Strings are sequences of Unicode scalar
  values, not UTF-16 code units. Every white-space character and both `@`
  and `.` lie in the Basic Multilingual Plane, so trimming and the pattern
  test decide the same way on either reading.
- The browser's handling of the `type="email"` input: its value
  sanitisation (newlines and leading and trailing ASCII white space removed)
  and its constraint validation, which can block submission before
  `handleSubmit` runs. `PaddedEmailRejected`, `MalformedEmailScenario` and
  `SpacedEmailRejected` are facts about `validateForm` on the value it is
  given, not about what the page shows.
- The scroll-progress bar (`useScroll` and `useSpring`). It is a spring
  animation with floating-point numbers.
- The one-shot reveal animations (`useInView({ once: true })`), their
  variants and stagger and spring constants. These are presentation driven
  by a library.
- The real DOM and clocks:
  - `getBoundingClientRect` and `window.scrollY` are parameters, and pixels
    are integers rather than floating-point numbers;
  - the `scroll` listener's registration and removal are left out;
  - the 300 ms wait is a queued step, not a time;
  - `window.scrollTo` is left out: the browser clamps the offset to the page
    and animates the smooth scroll. The model returns the requested offset.
- React's render cycle. Each event sees the state left by the previous one.
  In the code, handlers read the state of the last render, which is the same
  thing as long as a render happens between events.
- Intro's `handleDownloadCV` and `handleScrollToContact`. These are DOM side
  effects only.
- The content arrays and markup (Skills, Experience, Projects, FutureGoals,
  Footer), the page composition (`page.tsx`) and the build configuration
  (`next.config.ts`). They hold no logic.
