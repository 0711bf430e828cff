# RiotLCGC-BE capture-and-notify core, in Dafny

This project models the decision and formatting rules of the `app.js`
server of RiotLCGC-BE, which:

- renders a match-history report page;
- screenshots it with a headless browser whenever the database reports a new row;
- posts the screenshot with a date-stamped caption to a Discord webhook;
- forwards images uploaded by the front end to the same webhook.

The model covers:

- **Durations** (`duration.dfy`): `getGameDurationMin`, which rounds a duration in seconds to
  minutes, rounding up only when more than 30 seconds are left over. Also the two-digit
  seconds field the report shows next to it.
- **Strings** (`text.dfy`): `String(n)` on whole numbers in its plain decimal form, and
  `padStart`, with a digit reader `ParseDigits` as their partner for round-trip statements.
- **CORS** (`cors.dfy`): the origin callback that decides which front ends may call the server.
- **sendToDiscord** (`discord.dfy`):
  - the caption `YYYY-MM-DD 최신 전적 업데이트!`, built from the year, the zero-based month
    and the day;
  - the multipart form, a `FormData` class whose parts are appended in place;
  - the choice of file part by payload type (`"M"` a stream of a path, `"S"` a buffer named
    `capture.png`, anything else none);
  - the swallowing of every failure.
- **capture** (`capture.dfy`):
  - the steps that `capture()` awaits: launch, new page, viewport, navigation, image wait,
    ready marker, screenshot, send, close;
  - where these sit relative to its `try`/`catch`/`finally`;
  - how its promise settles.

  Which browser steps throw is a parameter, a set of steps. The procedure returns the steps
  it ran, the file it wrote and the webhook request it made.
- **POST /send-image** (`send_image.dfy`): the status and message it answers with, and the
  webhook request it makes.

The clock (`new Date()`, `Date.now()`) and the webhook's answer are parameters throughout.

## Behaviour the model keeps

- **No single-flight gate.** `capture()` is started, without being awaited, on every
  insert event (`app.js:272-275`). No flag or state machine keeps two captures from
  overlapping, so the model has no such gate.
- **A failed webhook post still gets 200 from /send-image.** `sendToDiscord` catches every
  error itself (`app.js:167-169`), so the handler's `catch` is never reached from the send.
  It is reached when the request is not multipart: the upload middleware then leaves
  `req.body` undefined, reading `req.body.message` (`app.js:241`) throws, and the answer is
  500 "Server error" (`app.js:255-257`) rather than 400.
- **/send-image ignores the uploaded message when sending.** The `message` field is only
  logged (`app.js:248`). The caption sent is the date stamp, as on the capture path.
- **Failures before the try block are not absorbed.** A failure of `puppeteer.launch` or
  `browser.newPage` (`app.js:174-179`) happens before the `try`, so `capture()` rejects. In
  the `newPage` case the browser is then never closed.
- **A failing close rejects.** A failure of `browser.close()` in the `finally` block also
  rejects `capture()`. Only failures inside the `try` are caught and logged.
- **The empty origin is allowed.** The CORS callback tests `!origin`, so an empty `Origin`
  header is let through along with an absent one.

## Model

| member | source | states |
|---|---|---|
| Text.NatToString | app.js:149-150 | `String(n)` of a whole number (below 10^21, where JavaScript prints it in plain decimal) is a non-empty digit string, one digit exactly below 10, with no leading zero |
| Text.ParseNatToString | app.js:149-150 | reading back the digits `String(n)` writes gives n |
| Text.NatToStringInjective | app.js:149-150 | different numbers print differently |
| Text.PadStart | app.js:229 | `padStart(width, fill)` yields length max(\|s\|, width), ends with s, and everything before s is fill; it never truncates |
| Text.PadStartZerosKeepsValue | app.js:229 | zero-padding a digit string keeps the number it denotes |
| Text.Pad2 | app.js:149-150 | `String(n).padStart(2, '0')` is all digits, denotes n, and is exactly two characters when n < 100 |
| Text.Pad2Injective | app.js:149-150 | different numbers give different two-digit fields |
| Duration.MinutesRounded | app.js:133-141 | the rounded minutes m are the unique m with 60m - 30 < d <= 60m + 30 (nearest minute, half a minute rounds down) |
| Duration.NearestMinuteUnique | app.js:133-141 | that characterisation fixes one minute count |
| Duration.GetGameDurationMin | app.js:133-141 | the floor-then-increment procedure computes the nearest-minute rounding |
| Duration.MinutesRoundedByRemainder | app.js:134-138 | the result is d/60 plus one exactly when d%60 > 30, so it is d/60 or d/60 + 1 |
| Duration.RoundingBoundary | app.js:136-138 | a leftover of exactly 30 seconds rounds down, 31 rounds up |
| Duration.MinutesRoundedMonotone | app.js:133-141 | more seconds never give fewer minutes |
| Duration.SecondsField | app.js:229 | the seconds field is two digits denoting duration % 60, a value below 60 |
| Duration.SecondsFieldDeterminesRemainder | app.js:229 | two durations show the same seconds field iff they agree modulo 60 |
| Cors.OriginCallback | app.js:14-23 | allowed iff the origin is absent, empty, `http://localhost:3001` or `https://rabbitgang.vercel.app`; every refusal carries "Not allowed by CORS" |
| Cors.ExtendedOriginRefused | app.js:14-21 | every listed origin extended by any non-empty text (a trailing slash, a path, a port) is refused |
| Cors.SchemeSwapRefused | app.js:14-21 | every listed origin with `http://` and `https://` swapped is refused |
| Discord.StampPieces | app.js:151 | in `y-mm-dd` with two-character fields, the year, both dashes, the month and the day sit at fixed offsets after the year |
| Discord.StampInjective | app.js:151 | with an all-digit year, `y-mm-dd` determines y, mm and dd |
| Discord.CaptionInjective | app.js:147-160 | for calendar months and days, different dates give different captions, so the caption determines year, month and day |
| Discord.DiscordFormShape | app.js:153-160 | the form has one `file` part exactly for "M" (a stream of the path) and "S" (the buffer named `capture.png`), always followed by the single `content` part with the caption, which comes last |
| Discord.FormData.constructor | app.js:153 | a new form has no parts |
| Discord.FormData.Append | app.js:156-160 | appending adds exactly one part at the end and keeps the rest |
| Discord.SendToDiscord | app.js:143-170 | posts the form above to the webhook URL and always completes, logging "Discord transfer complete!" or the failure prefix, a space and the error message |
| Capture.RunUntilThrowIsPrefix | app.js:181-208 | the try block runs a prefix of its steps; all but its last step succeeded; an early stop ends on a throwing step; it runs everything iff no step before the last throws |
| Capture.RunUntilThrowStopsAt | app.js:181-208 | if the steps before k succeed and step k throws or is last, exactly the first k + 1 steps run |
| Capture.CloseRunsOnceAfterPage | app.js:174-211 | once launch and newPage succeed, close runs exactly once, as the last step, whichever try step fails; when either of them throws, close never runs |
| Capture.CaptureFollowsProgramOrder | app.js:174-211 | the steps run are a prefix of the program's order, followed by close when close runs |
| Capture.DispatchOnlyAfterScreenshot | app.js:181-206 | the send step runs iff launch, newPage and every try step before it succeed; whenever it runs, the screenshot step ran too |
| Capture.TryBlockUnrolled | app.js:181-206 | the try block runs viewport, navigation, image wait, ready marker, screenshot and send in that order, stopping after the first that throws |
| Capture.TryBlockMilestones | app.js:202-206 | the screenshot is taken iff at least five try steps ran; it succeeded and was sent iff all six ran |
| Capture.RunTryBlock | app.js:181-208 | the try block runs its steps until one throws; it writes `screenshots/screenshot-<now>.png` iff the screenshot succeeds, and then sends exactly that file as payload "M" |
| Capture.RunCapture | app.js:173-212 | `capture()` runs the steps `CaptureTrace` describes and settles as `CaptureCompletion` says (rejecting on launch, newPage or close failures). It writes the screenshot file iff the screenshot step succeeds, and makes one webhook request iff the send step runs |
| SendImage.ImageRequestForm | app.js:252 | the request for an uploaded image holds exactly its buffer as a file named `capture.png`, then the date-stamped caption |
| SendImage.HandleSendImage | app.js:239-259 | a request that is not multipart: 500 "Server error" and nothing sent. Multipart without a file: 400 "Empty file" and nothing sent. With a file: exactly the one request above and 200 "Image received successfully", whatever the webhook answered |
| SendImage.ImageRequestCarriesBuffer | app.js:252 | the request carries the uploaded buffer itself: different images give different requests |

## Left out

- The Supabase queries `getLogData` … `getPlayerData` (`app.js:34-130`) and the `/main` template
  render (`app.js:215-236`). Remote database I/O and EJS rendering are outside the model. The
  only rules `/main` computes itself, the minutes and the seconds field, are modelled.
- The realtime subscription (`app.js:261-280`), which starts `capture()` on each insert event.
  The push transport is out of scope. Overlapping captures are not modelled either: the model
  runs one `capture()` at a time, and the code has no gate between them.
- Express setup, static serving, `app.listen` and the upload middleware (`app.js:8-13, 26-32`).
  The middleware's parsing is a parameter: whether the request was multipart, and if so the
  `message` field and the optional file.
- Puppeteer internals: page loading, the image onload/onerror wait, selector and navigation
  timeouts. Each step is opaque, and only whether it throws is modelled. The viewport size,
  report URL, timeouts and ready marker are not part of the model.
- The axios POST, `form.getHeaders()` and `fs.createReadStream`. The post's outcome is a
  parameter, and a file part records the path or buffer it carries, not its bytes.
- Console logging, except the success and failure lines of `sendToDiscord`, which are
  returned.
- Text.NatToString: numbers are unbounded naturals. JavaScript numbers are doubles, so
  `String(n)` matches only below 10^21 (from there it prints exponential form such as
  `1e+21`), and the duration arithmetic (`/ 60`, `% 60`) is exact only below 2^53. Every
  value the server prints or divides (year, month, day, `Date.now()`, game durations) is far
  below both bounds.
- Durations are whole non-negative numbers of seconds. Negative or fractional durations are
  not modelled. The year is a whole non-negative number.
- Discord.SendToDiscord: an unreadable or missing path (the read stream fails during the
  post) and a missing webhook URL (`axios.post` rejects) both end as a rejected post, caught
  at `app.js:167`, and are modelled by `Refused`. With no webhook URL no HTTP request leaves
  the process, although the model still returns the `request` it would have posted.
- Capture.RunTryBlock: does not model whether a screenshot that throws leaves a partial
  file. A failed screenshot counts as writing nothing.
- SendImage.HandleSendImage: a throw from logging or from writing the 200 response, which
  would also land in the 500 branch (`app.js:255-257`), is not modelled. Only the throw at
  `app.js:241` on a body that is not multipart is.
