# Greeting-card screens: a verified Dafny model

This project models the parts of a small greeting-card app that contain logic. The app is a sequence of screens: cover, envelope, question and result. Each part below becomes one Dafny module. Positions and scales are exact `real`s. Each draw of `Math.random()` is a parameter in `[0, 1)`. Navigation is a list of the routes pushed.

- `Question` (`question.dfy`, app/question.tsx). The question screen has an evasive "No" button and a growing "Yes" button. The class `QuestionScreen` holds:
  - the measured sizes of the arena and of the No button;
  - the No button's position;
  - the Yes scale (the `yesScaleValue` ref) and the centring latch (the `hasPositionedNo` ref);
  - the success-message flag and the routes pushed.

  The first time everything is measured, No is centred in the arena, and only that once. Each press on No moves it to a random point inside the room the arena leaves it. Each press also grows Yes by `min(1.35, s + 0.06)`. A press does nothing while any size is still 0: a size counts as unmeasured exactly when it equals 0 (app/question.tsx:83,87,196). The code does not keep No away from Yes, so the model does not either. A ghost attempt counter ties the Yes scale to its closed form `min(1.35, 1 + 0.06·n)`.
- `Envelope` (`envelope.dfy`, app/envelope.tsx). This screen has a checkerboard background and a "pull the paper out" tap guard.
  - `BuildSquares` runs the screen's nested loops (app/envelope.tsx:36-47) over a `ceil(width/46) × ceil(height/46)` grid. It is proved equal to the specification function `Board`.
  - Lemmas about `Board` prove the square count `(rows·columns + 1)/2` and that each square comes from an even-parity cell. Its id, left and top are those of that cell.
  - Other lemmas prove that every even-parity cell is painted, that ids strictly increase, and that no cell is painted twice.
  - The class `EnvelopeScreen` models the `isAnimating` guard and the completion callback.
- `Cover` (`cover.dfy`, app/index.tsx). The cover screen has a sprite cycling over 8 frames and a video shown in a modal. When the video ends, the screen pushes `/question`.
  - The modal's state is the value `Video`. Its transitions are functions: open, reset, handle-end, `timeUpdate`, `playToEnd`, and the viewer's pause, resume and seek on the player's native controls.
  - The class `CoverScreen` implements each transition as a method proved against that function.
  - The lemma `AtMostOncePerShowing` covers any run of events. It proves that `/question` is pushed no more often than a showing of the video starts (a press that finds the modal hidden), plus one for a showing already in progress.

## Model

| member | source | states |
|---|---|---|
| `Question.Room` | app/question.tsx:200-201 | The room is never negative. When the button fits, room plus button size equals the arena size. When it does not fit, the room is 0. |
| `Question.Centre` | app/question.tsx:91-92 | The centred offset lies in `[0, room]`. When the button fits, the button's midpoint is the arena's midpoint and the margins on both sides are equal. Otherwise the offset is 0. |
| `Question.Jump` | app/question.tsx:202-203 | With a random draw in `[0, 1)`, the new offset lies in `[0, room]`, strictly below the room when there is room. |
| `Question.NextYesScale` | app/question.tsx:206 | The next scale never exceeds 1.35 and never falls below a scale already within the cap. It is either the cap or one step of 0.06 larger. It saturates exactly when one more step would reach the cap. |
| `Question.ScaleAfterAttempts` | app/question.tsx:206-207 | After `n` attempts, starting from 1, the Yes scale is `min(1.35, 1 + 0.06·n)`, so it stays in `[1, 1.35]`. |
| `Question.ScaleMonotone` | app/question.tsx:206-207 | The Yes scale never decreases over successive attempts. |
| `Question.ScaleSaturates` | app/question.tsx:206 | From the sixth attempt on, the scale is 1.35, and further attempts leave it at 1.35. |
| `Question.QuestionScreen.constructor` | app/question.tsx:43-54 | Before any measurement, every size is 0, No sits at `(0, 0)`, Yes has scale 1, the latch is clear, no message is shown and nothing has been pushed. |
| `Question.QuestionScreen.PositionEffect` | app/question.tsx:82-95 | With the latch set or a size still 0, the position and latch stay unchanged. Otherwise No is placed at the centred offsets on both axes and the latch is set. |
| `Question.QuestionScreen.MeasureArena` | app/question.tsx:294-299 | Stores the arena's size, then centres No the first time all four sizes are non-zero. After the latch is set, a new measurement never moves No. |
| `Question.QuestionScreen.MeasureNo` | app/question.tsx:316-326 | Stores the No button's size, with the same once-only centring as for the arena. |
| `Question.QuestionScreen.HandleNoAttempt` | app/question.tsx:195-214 | With a size still 0, the position and Yes scale stay unchanged. Otherwise No jumps into `[0, room_x] × [0, room_y]` and Yes takes the next saturating scale. The invariant that No has been centred once everything is measured is kept. |
| `Question.QuestionScreen.HandleYes` | app/question.tsx:216-223 | With a result route, it pushes `/result` and leaves the message flag unchanged. Without one, it shows the message and pushes nothing. |
| `Envelope.Ceil` | app/envelope.tsx:31-32 | The result is the least integer not below its argument. |
| `Envelope.Cells` | app/envelope.tsx:31-32 | `cells · 46` covers the extent, and one cell fewer would not. |
| `Envelope.BuildSquares` | app/envelope.tsx:30-50 | The nested loops, with the running `id` counter, produce exactly `Board(rows, columns)`. |
| `Envelope.RowLength` | app/envelope.tsx:37-44 | A row prefix emits exactly one square per even-parity cell among its cells. |
| `Envelope.BoardCount` | app/envelope.tsx:36-47 | The board emits exactly one square per even-parity cell of the `rows × columns` grid. |
| `Envelope.EvenInRowHalf` | app/envelope.tsx:38 | A row of `count` cells has `(count+1)/2` even-parity cells on even rows and `count/2` on odd rows. |
| `Envelope.AdjacentRows` | app/envelope.tsx:38 | Two neighbouring rows hold exactly one even-parity cell per column between them. |
| `Envelope.EvenCellsPairs` | app/envelope.tsx:36-38 | `2·p` rows of `columns` cells hold `p·columns` even-parity cells. |
| `Envelope.EvenCellsHalf` | app/envelope.tsx:36-38 | A `rows × columns` grid has `(rows·columns + 1)/2` even-parity cells. |
| `Envelope.BoardLength` | app/envelope.tsx:36-47 | The board has `(rows·columns + 1)/2` squares. |
| `Envelope.RowSound` | app/envelope.tsx:37-44 | Every square of a row prefix is the square of an even-parity cell of that row. |
| `Envelope.BoardSound` | app/envelope.tsx:36-47 | Every square comes from an even-parity cell `(row, column)` inside the grid, with `id = row·columns + column + 1`, `left = column·46` and `top = row·46`. |
| `Envelope.RowComplete` | app/envelope.tsx:37-44 | Every even-parity cell of a row prefix has its square emitted. |
| `Envelope.BoardComplete` | app/envelope.tsx:36-47 | Every even-parity cell of the grid has its square on the board. |
| `Envelope.RowIds` | app/envelope.tsx:37-45 | The ids in a row prefix strictly increase and lie in `(row·columns, row·columns + count]`. |
| `Envelope.BoardIds` | app/envelope.tsx:34-47 | The ids strictly increase in emission order, so they are distinct, and they lie in `[1, rows·columns]`. |
| `Envelope.BoardNoRepeat` | app/envelope.tsx:36-47 | No two squares of the board have the same left and top: no cell is painted twice. |
| `Envelope.EnvelopeScreen.constructor` | app/envelope.tsx:26-28 | Initially nothing is animating, the paper is at offset 0 and scale 1, and nothing has been pushed. |
| `Envelope.EnvelopeScreen.HandlePaperPress` | app/envelope.tsx:52-58 | A tap while animating changes nothing. Otherwise it starts the animation. Either way, an animation is running afterwards. |
| `Envelope.EnvelopeScreen.PaperOutDone` | app/envelope.tsx:72-78 | On completion, `/question` is pushed, the offset goes back to 0 and the scale to 1, and taps are accepted again. |
| `Cover.NextFrame` | app/index.tsx:84-86 | The next frame lies in `[0, 8)`. It is the following frame, or frame 0 after the last one. |
| `Cover.FrameAfterTicks` | app/index.tsx:83-90 | After `n` ticks from frame 0, the sprite shows frame `n mod 8`, always in `[0, 8)`. |
| `Cover.ReportedTime` | app/index.tsx:126 | The event's own time when it carries one, otherwise the player's current time. |
| `Cover.InitialVideo` | app/index.tsx:33-35 | At mount, the modal is hidden, the latch is clear, the player is paused at time 0 and nothing has been pushed. |
| `Cover.Open` | app/index.tsx:108-113 | Pressing while shown changes nothing. Otherwise the modal shows, the latch clears, and the player is rewound to 0 and plays. The invariant is kept. |
| `Cover.Reset` | app/index.tsx:92-96 | Afterwards the modal is hidden and the player is paused at time 0. The latch and navigation are unchanged. |
| `Cover.HandleEnd` | app/index.tsx:98-106 | With the latch set, it does nothing. Otherwise it sets the latch, hides and rewinds the video, and pushes `/question` exactly once. |
| `Cover.TimeUpdate` | app/index.tsx:120-130 | The state changes if and only if the modal is shown, the latch is clear, the duration is positive and the reported time has reached it. The change is then exactly the end handling. |
| `Cover.PlayToEnd` | app/index.tsx:132-138 | The state changes if and only if the modal is shown and the latch is clear. The change is then exactly the end handling. |
| `Cover.UserControl` | app/index.tsx:231 | A native control does nothing while the modal is hidden. While it is shown, pause stops the player, resume starts it and seek moves its time; nothing else changes, and the invariant is kept. |
| `Cover.HandleEndOnce` | app/index.tsx:98-138 | Once the end has been handled, handling it again changes nothing, and neither does any further time update, whatever time it reports, or play-to-end event. The first handling pushed exactly one `/question`. |
| `Cover.RunValid` | app/index.tsx:92-138 | Over any run of events, including pauses, resumes and seeks from the player's native controls, the player is paused and rewound whenever the modal is hidden, and a handled end has hidden the modal. |
| `Cover.StepPushes` | app/index.tsx:98-138 | One event pushes at most one `/question`. It only does so by ending the pending showing, and only a press that finds the modal hidden starts a new one. |
| `Cover.ShowingsAtMostPresses` | app/index.tsx:108-113 | A run of events starts no more showings than it has presses on the open button. |
| `Cover.AtMostOncePerShowing` | app/index.tsx:98-138 | Over any run of events, the number of `/question` pushes is at most the number of showings the run starts, plus one for a showing already in progress; hence also at most the presses on the open button plus that one. |
| `Cover.CoverScreen.constructor` | app/index.tsx:30-39 | At mount, the sprite is at frame 0 and the modal is in its initial state. |
| `Cover.CoverScreen.Tick` | app/index.tsx:83-90 | The frame becomes `(i + 1) mod 8`, stays in `[0, 8)` and equals `ticks mod 8`. |
| `Cover.CoverScreen.PressOpen` | app/index.tsx:108-118 | The new state is `Open` of the old one. |
| `Cover.CoverScreen.ResetVideo` | app/index.tsx:92-96 | The new state is `Reset` of the old one, and it satisfies the invariant whatever the modal's state before. |
| `Cover.CoverScreen.HandleVideoEnd` | app/index.tsx:98-106 | The new state is `HandleEnd` of the old one, and the invariant is kept. |
| `Cover.CoverScreen.OnTimeUpdate` | app/index.tsx:120-130 | The new state is `TimeUpdate` of the old one, and the invariant is kept. |
| `Cover.CoverScreen.OnPlayToEnd` | app/index.tsx:132-138 | The new state is `PlayToEnd` of the old one, and the invariant is kept. |
| `Cover.CoverScreen.NativeControl` | app/index.tsx:231 | The new state is `UserControl` of the old one, and the invariant is kept. |

## Left out

- Everything driven by `Animated` is left out: timing, spring, loop and parallel animations, easing and durations. The Yes spring, the glow, the pulses and the floating hearts are examples. Only the values these animations are started with or reset to are modelled. While the paper is sliding out, its offset and scale move toward -140 and 1.08; the model does not track those intermediate values.
- The random decorative layouts (`PATTERN_ITEMS`, `floatingHearts`, `components/heart-background.tsx`) are cosmetic placements with no contract.
- `app/letter.tsx`, `app/result.tsx`, `components/retro-window.tsx` and `src/components/RetroWindow.tsx` are declarative layout only and are not part of this model.
- The video player is reduced to a playing flag, a current time and a fixed duration. Its native controls (left on by the `VideoView`) and its stop at the end of playback are the events `Pause`, `Resume` and `Seek`. Controls other than these, such as fullscreen or picture-in-picture, are left out. `Cover.Progress` and `CoverScreen.PlayerClock` stand in for its clock. Media loading, buffering and a duration that changes while loading are left out.
- `BackHandler`, `Vibration`, the `Modal` component, `console.log` and the 140 ms `setInterval` period are I/O or timing. Each timer firing is one call of `Tick`. Expo Router is reduced to the list of pushed routes. `hasResultRoute` is a constructor parameter read once from the router's state.
- Floating-point rounding of layout sizes, positions and scales is left out; all of them are exact reals. A non-numeric `currentTime` (NaN) is not modelled.
- React's render scheduling is not modelled. A measurement runs the centring effect at once, as the effect does after the render that the size change causes. The cover's visibility effect runs at once when the flag changes.
- `Question.QuestionScreen.MeasureArena`: requires non-negative sizes, as layout measurements always are.
- `Question.QuestionScreen.MeasureNo`: requires non-negative sizes, as layout measurements always are.
- `Envelope.EnvelopeScreen.PaperOutDone`: requires a running animation, because the completion callback is only ever started by `HandlePaperPress`.
