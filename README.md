# Portfolio interaction state, modelled in Dafny

This project models the client-side interaction logic of a single-page React
portfolio. It covers:

- **Contact** (`contact.dfy`): the form validator, as pure functions over the
  three inputs, and the submission lifecycle, as the class `ContactForm`. Its
  methods are the input handler, the submit handler, the two timer callbacks,
  the "Send Another Message" button and the reveal callback. The validator
  relies on the JavaScript string semantics in `js_string.dfy`: the
  whitespace class shared by `String.prototype.trim` and the regular
  expression class `\s`, and `trim` itself. The email test
  `/\S+@\S+\.\S+/` becomes an existence predicate over the positions of
  `@` and `.`.
- **Skills** (`skills.dfy`): the static skill list, the four-valued category
  filter as a pure, order-preserving filter, and the section state that the
  filter buttons update.
- **Projects** (`projects.dfy`): the one-slot detail modal, with open, close
  and backdrop-click behaviour. The body's scroll style is kept as a ghost
  field.
- **Education** (`education.dfy`): the two-tab selector and which of the two
  lists it shows, with 200 ms staggered card delays.
- **Hero** (`hero.dfy`): the rotating title index and why `texts[textIndex]`
  is always in bounds.
- **Reveal** (`reveal.dfy`): the one-shot `animated` flag that Contact, Skills
  and Education share, and the staggered transition delays of rendered cards.
  It is modelled once and used by all three.

Event handlers are methods on classes whose fields are the components' state
variables. Each method states the whole new state. The invariant `Valid()`
holds in every state the handlers can reach. It over-approximates them: it
states what the proofs need, not every fact about reachable states. Timers,
interval ticks and intersection observer callbacks are events, that is,
method calls. The client methods at
the end of each file drive a component through a whole scenario and state
what the user sees.

## Model

| member | source | states |
|---|---|---|
| JsString.IsWhitespace | src/components/Contact.tsx:75-85 | the one whitespace set (ECMAScript WhiteSpace and LineTerminator) that both `trim` strips and `\s` matches, used for `\S` in the email test |
| JsString.Trim | src/components/Contact.tsx:75 | `trim` returns a string no longer than its input. It is empty exactly when the input is all whitespace. Otherwise it starts and ends with a non-whitespace character |
| JsString.TrimIsSlice | src/components/Contact.tsx:75 | the trimmed string is a contiguous slice of the input, and only whitespace lies before and after it |
| JsString.TrimIdempotent | src/components/Contact.tsx:87 | trimming a trimmed string changes nothing |
| Reveal.Observe | src/components/Skills.tsx:84-88 | the observer callback sets the flag exactly on an intersecting event and never clears a set flag |
| Reveal.StaysRevealed | src/components/Skills.tsx:84-88 | once the flag is set, no sequence of later callbacks clears it |
| Reveal.RevealedIffIntersected | src/components/Skills.tsx:71-88 | starting from `false`, the flag is set after a run of callbacks exactly when one of them reported an intersection |
| Reveal.RevealedPrefixStaysRevealed | src/components/Education.tsx:75-94 | a flag set after a prefix of the callbacks is still set after all of them |
| Reveal.Stagger | src/components/Education.tsx:144 | the rendered cards are the items in order, and the card at index i waits `i * step` ms |
| Contact.FormData.With | src/components/Contact.tsx:97-100 | `{...prev, [name]: value}` sets the named input and leaves the other two unchanged |
| Contact.MatchesEmailPattern | src/components/Contact.tsx:81 | `/\S+@\S+\.\S+/.test(email)`: some `@` has a non-whitespace character before it, and some later `.` has at least one character between them, all non-whitespace, and a non-whitespace character right after it. A matching string has at least 5 characters and contains `@` and `.` |
| Contact.MatchImpliesNotBlank | src/components/Contact.tsx:79-83 | an address that matches the pattern is never blank, so "required" and a match exclude each other |
| Contact.MatchIgnoresSurroundingWhitespace | src/components/Contact.tsx:81 | the pattern, tested on the untrimmed address, gives the same answer on the trimmed one |
| Contact.MatchSurvivesSurroundingText | src/components/Contact.tsx:81 | the pattern is unanchored: a match survives any text added before or after it |
| Contact.NoAtSignNoMatch | src/components/Contact.tsx:81 | a non-blank word without `@` is rejected by the pattern |
| Contact.NameError | src/components/Contact.tsx:75-77 | the name error is present exactly when the name is blank, and it is "Name is required" |
| Contact.EmailError | src/components/Contact.tsx:79-83 | the email error is present exactly when the pattern does not match. It is "Email is required" for a blank address, which takes precedence, and "Email is invalid" otherwise |
| Contact.MessageError | src/components/Contact.tsx:85-89 | the message error is present exactly when the trimmed length is below 10. It is "Message is required" when blank and the "at least 10 characters" message otherwise |
| Contact.Validate | src/components/Contact.tsx:72-90 | the error record holds a key per failing field, each with that field's message |
| Contact.ValidateKnownMessages | src/components/Contact.tsx:73-89 | every entry the validator records is one of its own field's messages |
| Contact.ValidIffAcceptable | src/components/Contact.tsx:91-92 | the form is valid (the error record has no keys) exactly when the name is not blank, the address matches and the trimmed message has at least 10 characters |
| Contact.MessageAtMinimumPasses | src/components/Contact.tsx:87 | a trimmed message of exactly 10 characters has no error |
| Contact.ErrorsAreFieldLocal | src/components/Contact.tsx:72-90 | changing one input never changes another input's error, or whether it has one |
| Contact.EmptyFormHasThreeErrors | src/components/Contact.tsx:72-90 | the empty form gets exactly the three "required" errors |
| Contact.ShortestAcceptedExample | src/components/Contact.tsx:72-92 | `A`, `a@b.com` and a 10-character message are accepted |
| Contact.OnlyFormatError | src/components/Contact.tsx:79-83 | with a good name and message, a non-blank address the pattern rejects gives exactly one error, "Email is invalid" |
| Contact.AddressWithoutAtIsInvalid | src/components/Contact.tsx:81-82 | an address without `@` gives exactly the "Email is invalid" error |
| Contact.ContactForm.constructor | src/components/Contact.tsx:17-26 | empty inputs, no errors, not submitting, no thank-you view, not revealed |
| Contact.ContactForm.HandleChange | src/components/Contact.tsx:95-109 | the named input takes the new value. Only that input's error is cleared, and the other inputs, errors and the phase stay |
| Contact.ContactForm.ValidateForm | src/components/Contact.tsx:72-93 | replaces the error record by the errors of the current inputs and returns whether the inputs are acceptable |
| Contact.ContactForm.HandleSubmit | src/components/Contact.tsx:111-116 | an unacceptable form only has its errors replaced. An acceptable one enters the submitting phase with no errors and one submit timer pending. It is callable only while editing (button disabled while submitting, no form in the thank-you view) |
| Contact.ContactForm.SubmitTimerFires | src/components/Contact.tsx:118-128 | submitting ends, the thank-you view shows, all three inputs are emptied and a reset timer is scheduled |
| Contact.ContactForm.ResetTimerFires | src/components/Contact.tsx:130-132 | the thank-you view ends, and a pending submission is not disturbed |
| Contact.ContactForm.SendAnotherMessage | src/components/Contact.tsx:168-169 | from the thank-you view back to the empty form |
| Contact.ContactForm.OnIntersection | src/components/Contact.tsx:51-70 | the reveal flag follows `Reveal.Observe` |
| Contact.TypeIn | src/components/Contact.tsx:185-230 | typing into the three inputs sets the form data and clears every error |
| Contact.FilledForm | src/components/Contact.tsx:17-109 | a mounted form after typing shows the typed data, with no errors and no timers |
| Contact.SubmitAndWait | src/components/Contact.tsx:111-133 | submitting acceptable data passes through the submitting phase into the thank-you view and schedules one more reset timer. The reveal flag is outside its frame, so it is unchanged |
| Contact.AcceptedSubmissionLifecycle | src/components/Contact.tsx:111-135 | acceptable data goes editing, submitting, thank-you view, editing, and ends with empty inputs and no errors |
| Contact.RejectedSubmission | src/components/Contact.tsx:111-114 | unacceptable data stays in the form with the inputs kept and exactly their (non-empty) errors shown |
| Contact.StaleResetTimerEndsSecondSuccess | src/components/Contact.tsx:118-133 | reset timers are never cancelled: after "Send Another Message" and a second submission, the first submission's timer ends the second thank-you view, and the second timer is still pending |
| Skills.OfCategory | src/components/Skills.tsx:77 | every skill the category filter returns has that category, and the result is no longer than the list |
| Skills.OfCategoryCounts | src/components/Skills.tsx:77 | each skill of the category appears as often in the result as in the list, and other skills do not appear |
| Skills.OfCategoryMembers | src/components/Skills.tsx:77 | a skill is in the result exactly when it is in the list and has the category (soundness and completeness) |
| Skills.Visible | src/components/Skills.tsx:75-77 | the filter effect's list: with `'all'` it is the list unchanged, and with a category it keeps only skills of that category and is no longer than the list |
| Skills.FilterPreservesOrder | src/components/Skills.tsx:74-80 | for every filter the visible list is a subsequence of the skill list, in its original order |
| Skills.CategoriesPartition | src/components/Skills.tsx:6 | every skill has exactly one category, so the three category filters' sizes add up to the size of the list |
| Skills.OfCategoryAppend | src/components/Skills.tsx:77 | filtering a concatenation filters each part |
| Skills.CatalogHasThreePerCategory | src/components/Skills.tsx:11-66 | on the static list, each category filter returns its three skills and `'all'` returns all nine |
| Skills.SkillsSection.constructor | src/components/Skills.tsx:69-71 | filter `'all'`, the full list visible, not revealed |
| Skills.SkillsSection.SelectFilter | src/components/Skills.tsx:74-80 | a filter click makes the visible list the one the new filter selects |
| Skills.SkillsSection.Cards | src/components/Skills.tsx:139-145 | the skill cards are the visible skills in order, the i-th delayed by `i * 100` ms |
| Skills.SkillsSection.OnIntersection | src/components/Skills.tsx:82-101 | the reveal flag follows `Reveal.Observe` |
| Skills.FilterThenShowAll | src/components/Skills.tsx:74-80 | choosing a category shows exactly that category's skills in list order, and choosing `'all'` again restores the full list |
| Projects.ProjectsSection.constructor | src/components/Projects.tsx:59 | the modal starts closed and the body style is untouched |
| Projects.ProjectsSection.OpenModal | src/components/Projects.tsx:62-65 | the given project becomes the single open project, replacing any other, and the body stops scrolling |
| Projects.ProjectsSection.CloseModal | src/components/Projects.tsx:67-70 | from any state the modal is closed and scrolling is restored |
| Projects.ProjectsSection.HandleModalClick | src/components/Projects.tsx:72-76 | a backdrop click closes the modal, and a click inside the content leaves the state unchanged |
| Projects.OpenTwiceThenCloseTwice | src/components/Projects.tsx:62-70 | opening A then B leaves only B open, and closing is idempotent |
| Projects.ClickInsideThenOutside | src/components/Projects.tsx:72-76 | an inside click keeps the same project open, and a backdrop click then closes it |
| Education.Body | src/components/Education.tsx:136-188 | exactly one list is shown, education iff the education tab is active, and its i-th card is delayed by `i * 200` ms |
| Education.EducationSection.constructor | src/components/Education.tsx:71-72 | the education tab is active and the flag is not set |
| Education.EducationSection.SelectTab | src/components/Education.tsx:111-122 | the clicked tab becomes active, and clicking the active tab changes nothing |
| Education.EducationSection.OnIntersection | src/components/Education.tsx:75-94 | the reveal flag follows `Reveal.Observe` |
| Education.SwitchToAchievements | src/components/Education.tsx:122 | the education list shows on mount, and after the achievements click only the achievements list does |
| Hero.NextIndex | src/components/Hero.tsx:14 | the tick's index is in range. It is the next position, or the first after the last |
| Hero.IndexAfter | src/components/Hero.tsx:12-17 | from an index in range, any number of ticks leaves the index in range |
| Hero.IndexAfterAdvances | src/components/Hero.tsx:14 | before the end of the list, k ticks move the index k places forward |
| Hero.WrapsToFirst | src/components/Hero.tsx:14 | after the last position the index returns to the first |
| Hero.IndexAfterCompose | src/components/Hero.tsx:13-15 | a ticks followed by b ticks is a + b ticks |
| Hero.FullCycleReturns | src/components/Hero.tsx:10-14 | after as many ticks as there are texts, the index is back where it started |
| Hero.Periodic | src/components/Hero.tsx:10-14 | the shown text repeats with period 3 for every tick count |
| Hero.HeroBanner.constructor | src/components/Hero.tsx:9 | the index starts at 0 |
| Hero.HeroBanner.Tick | src/components/Hero.tsx:13-15 | each tick maps the index to `(index + 1) % 3` and keeps it in range |
| Hero.HeroBanner.CurrentText | src/components/Hero.tsx:33 | `texts[textIndex]` is always one of the texts (the access is in bounds) |
| Hero.FirstFourTitles | src/components/Hero.tsx:9-17 | the banner shows the three texts in turn and then the first again |

## Left out

- Contact.MessageError: lengths are counted in characters (Unicode scalar values). JavaScript's `length` counts UTF-16 code units, so a message containing characters outside the Basic Multilingual Plane reaches 10 sooner in the browser than in the model.
- Contact.ContactForm.HandleChange: clearing an error sets the key to `undefined` in the source; the model removes the key. The only reader of the key count, `validateForm`, counts a freshly built record, and an `undefined` entry renders nothing, so no observable behaviour differs.
- Contact.ContactForm.HandleChange: it requires that the thank-you view is not shown, because the inputs only exist while the form is rendered. Typing while a submission is in flight is allowed, as in the source (only the button is disabled).
- Real time: `setTimeout` (1500 ms and 5000 ms) and `setInterval` (3000 ms) are modelled as events (method calls). The pending timers are counters, so any order in which pending callbacks run is allowed. Wall-clock delays and the cleanup on unmount are not modelled.
- The intersection observer (its 0.3 threshold, observe/unobserve, effect re-registration) is browser I/O. Only its callback, with a boolean `isIntersecting`, is modelled.
- React rendering semantics are not modelled: batched state updates, stale closures over `animated` or `errors`, and effects running after render. The Skills filter effect is modelled as running with the click that changes the filter.
- `document.body.style.overflow` is a ghost field of the modal model, not real DOM. The `modalRef.current` null check is covered by the handler requiring an open modal, because the overlay and its handler exist only while one is open.
- Static data is reduced to the fields the logic reads: the skill name and category, project id and title, and education or achievement id and heading. Descriptions, icons, images, links, technologies and features carry no behaviour.
- Contact.ContactForm.HandleSubmit: the model lets every submit reach the handler, but the page has a browser-side gate first. The email input is `type="email"` (src/components/Contact.tsx:206), and the form (src/components/Contact.tsx:176) does not set `noValidate`. So the browser's constraint validation cancels the submit for any non-empty address that is not a valid HTML e-mail address, and `handleSubmit` never runs. The browser also strips leading and trailing ASCII whitespace from the input's value. `Contact.RejectedSubmission`, `Contact.AddressWithoutAtIsInvalid` and `Contact.OnlyFormatError` describe what the handler computes for such input, not what the page shows. On the real page "Email is invalid" is reachable only for addresses the browser accepts but the pattern rejects, such as `a@localhost`. The HTML e-mail grammar and this gate are not modelled.
- Apart from the `type="email"` attribute above, the markup, class strings, icons, the map iframe and external URLs are presentational.
- src/components/Header.tsx is not part of this model. Its scroll listener and menu toggle are browser I/O, and its theme toggle calls a context module that is not available.
- src/components/Certifications.tsx, src/components/About.tsx and src/components/Footer.tsx are static content. Certifications only repeats the reveal flag modelled in `Reveal`, and the Footer's year comes from the clock.
