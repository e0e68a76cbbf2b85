# Staged typewriter reveal of the No Reference home page

This project models the logic of the home page (`app/routes/home.tsx`) in
Dafny. The page types its copy out one character at a time with a
`Typewriter` component. It has three columns (About, Projects, Team) whose
blocks start at staggered offsets. The About column also has CONTACT and
PRIVACY POLICY buttons, and each opens a nested block that types itself out.

Timers are replaced by ticks. One run of a Typewriter's effect is `Activate`
followed by interval ticks. Tick k fires `startDelay + k * speed` after the
Typewriter was mounted, on the nominal schedule the timers are armed with
(browsers only promise that a timer fires no earlier than its delay; see
"## Left out"). A `Slot` places a Typewriter on a shared clock by its
mount time, and the schedule facts are stated as `FinishesBefore(a, b)`:
block a is fully shown whenever block b shows anything.

Modules:

- `Typewriter` (typewriter.dfy): the reveal machine, namely props, state, `Activate`, `Tick` and `Run`. It also models the mounted component, which restarts when its props change.
- `Clock` (clock.dfy): when each tick fires, the state at a given millisecond, and slots on a shared clock.
- `Column` (column.dfy): the column's offsets: header, body, closing quote and the two button labels.
- `ContactForm` (contact_form.dfy): the contact form's offsets and what it shows over time.
- `Toggle` (toggle.dfy): the two booleans and the two click handlers, plus their three-state abstraction.
- `Panel` (panel.dfy): the toggle together with the mounting and unmounting of the nested blocks.
- `Home` (home.dfy): the three columns and their delays.

Some behaviour of the code is easy to miss; the model keeps it:

- The cursor is hidden one tick after the last character appears (tick `|text| + 1`), not together with it. For "abc" at 10 per character, all three characters are shown at 30, but `done` becomes true only at 40 (`Clock.AbcScenario`).
- An empty text makes the effect return before arming any timer. Such a Typewriter never completes, and its cursor keeps blinking. The Column's closing-quote Typewriter is one of these.
- The Column offsets are fixed gaps, not derived from the length of the preceding block. The header `let <name> = "` is still typing when the body starts, for every name longer than four characters (`Column.HeaderBeforeBodyIff`). The body-to-buttons step does follow the length rule: the closing quote starts exactly on the body's last tick.
- The contact form's labels are inside the `<form>` element. That element is mounted only when the form's own timeout, at `startDelay + 250`, fires. So the labels' start delays are counted from that later instant. The closing brace waits for the message label only when the form's start delay is at most 32 (`ContactForm.BraceAfterMessageIff`). The page passes 0.
- Negative delays are not clamped by the code. The model uses natural numbers for speeds and delays, and every call site passes non-negative constants.

## Model

| member | source | states |
|---|---|---|
| Typewriter.Activate | app/routes/home.tsx:20-24 | a new run starts with empty output, no completion and index 0; a timer is armed exactly when the text is non-empty |
| Typewriter.Tick | app/routes/home.tsx:29-38 | a tick keeps the state consistent with the text; it appends at most one character, which is the next character of the text; the index advances exactly when a character is appended; completion switches on alone, only once the text is exhausted, and clears the interval; a state with no pending timer never changes |
| Typewriter.Run | app/routes/home.tsx:26-39 | every state reachable by ticks keeps the run invariant: the output is the text up to the index, and a done run has no pending timer and has consumed the text |
| Typewriter.RunShape | app/routes/home.tsx:26-37 | for a non-empty text, after k ticks the output is `text[..min(k, |text|)]`; done holds exactly when k > |text|; a timer is pending exactly while k <= |text| |
| Typewriter.RunIdle | app/routes/home.tsx:21-24 | for an empty text, no timer is armed, the output stays empty and done stays false after any number of ticks |
| Typewriter.RunDone | app/routes/home.tsx:30-34 | a run is done if and only if its text is non-empty and at least |text| + 1 ticks have fired; a done run shows the whole text |
| Typewriter.RunMonotone | app/routes/home.tsx:36 | within a run, an earlier output is always a prefix of a later one |
| Typewriter.RunSettles | app/routes/home.tsx:31-34 | after the interval is cleared no tick changes the state: k ticks equal min(k, |text| + 1) ticks |
| Typewriter.Mount | app/routes/home.tsx:17-24 | a new Typewriter starts with empty output, done false and index 0, which is the start of the run for its props |
| Typewriter.Restart | app/routes/home.tsx:41-45 | a change of text, speed or start delay discards the old run and starts from the fresh state of the new props |
| Typewriter.Cancel | app/routes/home.tsx:41-44 | the cleanup on unmount leaves no timer pending and keeps what is shown |
| Typewriter.CancelledStaysPut | app/routes/home.tsx:41-44 | after cleanup, no number of interval firings changes the component |
| Typewriter.Step | app/routes/home.tsx:20-45 | a render with unchanged dependencies leaves the component untouched; a render with changed dependencies resets it to the new run's initial state; a tick only extends the output; consistency is preserved |
| Typewriter.Replay | app/routes/home.tsx:20-45 | under any sequence of ticks and renders, the state stays consistent with the current text, so the output is never a splice of an old text and a new one |
| Typewriter.NeverSplices | app/routes/home.tsx:20-45 | after a mount and any sequence of ticks and renders, the output is a prefix of the current text, never a splice of an old text and a new one |
| Typewriter.ReplayTicks | app/routes/home.tsx:28-38 | k interval firings on a mounted component give exactly the run of k ticks |
| Clock.TicksBy | app/routes/home.tsx:28-39 | the number of ticks fired by time t is the largest n whose tick time is at most t |
| Clock.TicksByIff | app/routes/home.tsx:28-39 | tick k has fired by time t if and only if k = 0 or `startDelay + k*speed <= t` |
| Clock.TicksByMonotone | app/routes/home.tsx:28-39 | the number of fired ticks never decreases over time |
| Clock.StateAt | app/routes/home.tsx:17-39 | the state shown at any millisecond is consistent with the text |
| Clock.ProgressAt | app/routes/home.tsx:26-37 | at time t the output is the prefix with one character per fired tick |
| Clock.GrowsOverTime | app/routes/home.tsx:36 | the output at an earlier time is a prefix of the output at a later time |
| Clock.ShownIff | app/routes/home.tsx:28-37 | the whole text is shown if and only if the text is empty or the last character's tick (`startDelay + |text|*speed`) has passed |
| Clock.StartedIff | app/routes/home.tsx:24-36 | something is shown if and only if the text is non-empty and the first tick (`startDelay + speed`) has passed |
| Clock.DoneIff | app/routes/home.tsx:30-34 | the cursor is hidden if and only if the text is non-empty and tick |text| + 1 has fired |
| Clock.SettledAfterDone | app/routes/home.tsx:31-34 | from the completion tick on, the state no longer changes |
| Clock.AbcScenario | app/routes/home.tsx:26-39 | for "abc" at 10 per character: "a" at 10, "ab" at 20, "abc" at 30, done only at 40 |
| Clock.SlotAt | app/routes/home.tsx:17-39 | a Typewriter placed at a mount time shows a state consistent with its text at every absolute time; before its mount it shows nothing and has no pending timer |
| Clock.SlotStartedIff | app/routes/home.tsx:24-36 | a slot shows something if and only if its text is non-empty and its first tick, counted from its mount, has passed |
| Clock.SlotShownIff | app/routes/home.tsx:28-37 | a slot shows its whole text if and only if the text is empty or its last character's tick, counted from its mount, has passed |
| Clock.FinishesBeforeIff | app/routes/home.tsx:28-39 | block a is complete whenever block b shows anything if and only if a's last character is due no later than b's first one, or either text is empty |
| Column.Header | app/routes/home.tsx:190 | the header has the variable name at offset 4 and is 8 characters longer than the name |
| Column.CloseQuoteDelay | app/routes/home.tsx:191-193 | the closing quote starts exactly when the body's last character is typed |
| Column.Slots | app/routes/home.tsx:199-246 | the column's start offsets are non-decreasing in render order for every delay and body length; only the About column has the two button labels |
| Column.ButtonsAfterBody | app/routes/home.tsx:191-193 | neither button label shows a character before the whole body is shown |
| Column.CloseQuoteIdle | app/routes/home.tsx:214-220 | the empty closing-quote Typewriter never shows anything and never completes |
| Column.HeaderBeforeBodyIff | app/routes/home.tsx:190-211 | the header finishes before the body starts if and only if the body is empty or the name has at most 4 characters |
| ContactForm.Offsets | app/routes/home.tsx:58-146 | the form's offsets (header, form shown, name, email, message, closing brace) strictly increase from d to d + 900 |
| ContactForm.ViewAt | app/routes/home.tsx:61-133 | the form element (and with it the labels) is shown if and only if d + 250 has passed; every shown block is consistent with its text |
| ContactForm.BlankIff | app/routes/home.tsx:58-82 | the form shows nothing if and only if the header's first tick (d + 18) has not yet come |
| ContactForm.LabelsCascade | app/routes/home.tsx:76-114 | for every start delay, the header, the name label, the email label and the message label each finish before the next one shows anything |
| ContactForm.BraceAfterMessageIff | app/routes/home.tsx:101-142 | the closing brace waits for the whole message label if and only if the start delay is at most 32 |
| Toggle.Press | app/routes/home.tsx:227-241 | a click flips its own flag and clears the other, so at most one block is open afterwards |
| Toggle.PressAll | app/routes/home.tsx:196-197 | a sequence of clicks preserves mutual exclusion, and establishes it after the first click |
| Toggle.NeverBothOpen | app/routes/home.tsx:196-241 | from the initial state, no sequence of clicks opens both blocks |
| Toggle.PressTwice | app/routes/home.tsx:228-240 | clicking one button twice restores its flag and clears the other; from both closed it returns to both closed |
| Toggle.Select | app/routes/home.tsx:227-245 | in the three-state view, a click opens its own block or closes it when it is already open |
| Toggle.Concrete | app/routes/home.tsx:196-197 | each of the three abstract states corresponds to an exclusive pair of flags |
| Toggle.PressRefinesSelect | app/routes/home.tsx:227-245 | on exclusive states the pair of flags is the three-state machine: the abstraction is one-to-one, and a click is a `Select` |
| Panel.PressAt | app/routes/home.tsx:227-249 | any block that is open after a click was closed before it and is mounted at the click's time |
| Panel.ContactView | app/routes/home.tsx:248 | the contact form is mounted if and only if `showContact` holds |
| Panel.PolicyView | app/routes/home.tsx:149-178 | the privacy policy is mounted if and only if `showPolicy` holds, and it shows a prefix of the policy text |
| Panel.SwitchTearsDown | app/routes/home.tsx:228-240 | opening one nested block unmounts the other, so the other can show no further progress |
| Panel.AtMostOneMounted | app/routes/home.tsx:248-249 | in an exclusive state, at most one nested block is mounted |
| Panel.OpeningIsFresh | app/routes/home.tsx:248-249 | a block opened by a click shows nothing at the moment of the click |
| Panel.ReopenForgetsHistory | app/routes/home.tsx:248 | what a reopened contact form shows depends only on the click that reopened it |
| Panel.OnOffOn | app/routes/home.tsx:228-248 | after CONTACT is clicked on, off and on again, the form's run counts from the third click |
| Home.Columns | app/routes/home.tsx:305-311 | the three columns start at 0, 200 and 400, and only the About column has buttons |
| Home.HeadersOverlapBodies | app/routes/home.tsx:190-211 | in each of the page's columns with a non-empty body, the header is still typing when the body starts |
| Home.AboutButtonsWaitForBody | app/routes/home.tsx:224-246 | in the About column, both button labels wait for the whole body |

## Left out

- Real timers, the event loop and React's effect and cleanup plumbing are not modelled. They become ticks, `Restart`, `Cancel`, and the mounting and unmounting of slots. A re-render and its effect are treated as happening at the same instant. Double effect runs in development mode are not modelled.
- Clock.TicksBy: requires a positive speed. With speed 0 the interval's real period depends on the browser's timer clamping, which is not modelled. Every call site passes 8, 12, 18 or 28.
- Clock.StateAt: requires a positive speed, for the same reason.
- Timer delays are unbounded natural numbers. Browsers hold a timer delay in a 32-bit signed integer, and a delay above 2^31-1 ms fires almost at once. The ordering lemmas hold only while every delay involved stays at or below 2^31-1 ms. The page's own delays are far below that.
- Column.Slots: the non-decreasing order of start delays holds in the browser only while `closeQuoteDelay + 250` stays at or below 2^31-1 ms. A body of more than about 178 million characters would break it.
- Column.ButtonsAfterBody: holds only while the button labels' delays stay at or below 2^31-1 ms, for the same reason.
- ContactForm.LabelsCascade: holds only for start delays with `d + 900` at or below 2^31-1 ms. For example, with d = 2^31-301 the email label's delay wraps and it types before the name label finishes.
- ContactForm.Offsets: the offsets strictly increase only under the same bound on `d + 900`.
- Clock.FinishesBeforeIff: the model's clock is ideal, and every timer fires exactly on its nominal time. A browser only promises that a timer fires no earlier than its delay. Interval beats can come late or be skipped while the main thread is busy, and background tabs throttle timers to about once a second. The cross-block orderings hold only while every timer fires on time.
- Column.ButtonsAfterBody: holds only on the ideal clock. The margin between the body's last character and CONTACT's first is 218 ms. For example, a body of 1006 characters loses that margin if its 12 ms interval falls about 18 beats behind.
- ContactForm.LabelsCascade: holds only on the ideal clock, for the same reason.
- Home.AboutButtonsWaitForBody: holds only on the ideal clock, for the same reason.
- Home.HeadersOverlapBodies: is stated on the ideal clock. Late timers can change which block types when.
- Browser timer clamping of nested timeouts to at least 4 ms is not modelled. Every speed used is at least 8, so it would not change the schedule.
- Characters are Dafny `char`s. JavaScript strings are UTF-16 code units, and `charAt` works on code units, so an astral character would take two ticks there. The page's copy does not depend on this.
- Rendering is not modelled: JSX, CSS classes, the cursor element and the form inputs. The no-op `handleSubmit` (app/routes/home.tsx:68-70) is also left out.
- The static copy (`aboutBody`, `projectsBody`, `teamBody` and the privacy policy text) is treated as opaque strings. Only their length matters to the schedule.
- `app/routes/_index.tsx` is left out. Its mouse-move glitch toggle is event plumbing with no schedule logic.
- `app/components/WaveText.tsx` is left out. It only renders, and its one computation is a floating-point animation delay.
