# Movie catalog front end: a Dafny model

This project models the logic of a small movie catalog web page. The page
lists movies from a REST backend, searches and sorts them, and creates,
edits and deletes them through a modal form. Three parts of the source are
modelled:

- **The movie form** (`components/MovieForm.tsx`). This is the class
  `MovieFormModel.MovieForm`. Its fields are `title`, `genre`, `rating`,
  `posterImage`, `isSubmitting` and `error`. It also has the rating input's
  keystroke filter and the reset that runs when the `movie` prop changes.
  The submit checks are the pure function `Validate`. `handleSubmit` awaits
  the parent's handler, so it is split into `StartSubmit`, the part before
  the await, and `FinishSubmit`, the part after it. `Submit` runs both.
- **The page controller** (`app/page.tsx`). This is the class `HomePage.Home`
  with the seven state fields of the page. It has one method per handler and
  the ghost predicate `Valid`, which is the mode invariant: the create form
  and the edit form are never selected together. The ghost field `requests`
  lists the API calls the page has made, in order. This is how the model
  states "no call is made" and "the list reloads after every successful
  change". `SubmitModal` connects the form to the handler the page wired.
- **The API client** (`lib/api.ts`). This is module `Api`. It builds the
  query of the list request. For each call, it turns the backend's answer
  into a value or a thrown error with the source's error messages. The
  `catch` block that replaces a browser "failed to fetch" `TypeError` with
  the "Cannot connect…" message is `Caught`.

The JavaScript built-ins the checks depend on are modelled in the modules
`JsText` and `JsNumbers`:

- `trim`, with ECMA-262's full WhiteSpace and LineTerminator set;
- `includes`;
- decimal rendering of integers;
- `parseInt(s, 10)`, `parseFloat` and `Number.isInteger`.

Numbers are exact decimals (`num / den`, `den` a power of ten), not
doubles, so `parseFloat` differs from JavaScript where double rounding
matters (see "Left out").

The backend is not modelled. Every awaited answer is a parameter of type
`Fetched`: `Delivered(data)`, `HttpError(status, statusText, body, json)`,
`Rejected(exception)` when `fetch` (or the `response.text()` of a non-ok
answer) throws, or `BodyRejected(exception)` when the answer is ok but
reading its JSON body fails. Here `json` is what `JSON.parse` made of the body:
an object with optional `message` and `title`, some other JSON value, JSON
`null`, or a parse failure.

Places where the code behaves differently from what a reader might
expect; the model follows the code:

- Only the list, create and update calls turn a connection failure into the
  "Cannot connect…" message. `getMovieById` and `deleteMovie` pass the
  browser's error through unchanged.
- The list, create and update calls `return response.json()` from inside
  their `try` without awaiting it. A failed read of an ok answer's body
  therefore skips the `catch`, and its error reaches the caller unchanged,
  even a `TypeError` that mentions "fetch" (`BodyRejected`).
- The form reads `title`, `genre`, `rating` and `posterImage` from a movie.
  The declared `Movie` type has `name`, `description` and `imageUrl`
  instead. The model's `Movie` carries the fields the form reads, each
  optional, plus `id`.
- The submit check uses both `parseInt` and `parseFloat`, and the two read
  an exponent differently. `"10e-1"`, whose value is 1, passes the
  keystroke filter but fails the submit check, so a user who types or pastes
  it cannot submit. In the other direction `Validate` on its own would
  accept `"1e1"` as rating 1, although its value is 10. Typing never puts
  it in the rating field, because the filter refuses it (`ExponentRatings`).
  A movie's rating below 1e21 is rendered as plain digits, so editing such a
  movie does not put it there either. A rating of 1e21 or more is rendered
  with an exponent (`"3e+21"`), which the submit check accepts as rating 3;
  the model does not cover that case (see "Left out").
- `parseFloat` is what refuses ratings with a fractional part: `"2.5"` fails
  both the filter and the submit check, while `"2.0"` passes both as rating 2
  (`FractionAdmitted`, `FractionAccepted`).
- When an error body parses to JSON `null`, reading `.message` throws inside
  the inner `try`. The inner `catch` then appends the body to the status
  message (`HttpErrorMessage`).

## Model

| member | source | states |
|---|---|---|
| `JsText.TrimStart` | components/MovieForm.tsx:45 | the result is the suffix left after a maximal run of leading whitespace; it is empty or starts with non-whitespace |
| `JsText.TrimEnd` | components/MovieForm.tsx:40 | the result is the prefix left after a maximal run of trailing whitespace; it is empty or ends with non-whitespace |
| `JsText.Trim` | components/MovieForm.tsx:40 | the result is the part of the input between its leading and its trailing whitespace run (`IsMiddle`: both runs are all whitespace); it is trimmed; it is empty exactly when the input is all whitespace; a trimmed input is its own trim |
| `JsText.ContainsIffOccurs` | lib/api.ts:18 | the scan that models `includes` is true exactly when the needle occurs at some position of the text |
| `JsText.DigitRun` | components/MovieForm.tsx:45 | the longest prefix of decimal digits: all digits, and followed by a non-digit or the end |
| `JsText.NatToString` | lib/api.ts:14 | the rendering of a status number is a non-empty digit string without a leading zero |
| `JsText.IntToString` | components/MovieForm.tsx:25 | `toString` of an integer starts with `-` exactly when it is negative, and the rest is digits, with no leading zero unless it is `0`, whose value is its magnitude |
| `JsText.NatToStringRoundTrip` | components/MovieForm.tsx:25 | reading the digits of a rendered number gives the number back |
| `JsNumbers.ParseIntDigits` | components/MovieForm.tsx:45 | `parseInt(s, 10)` of a non-empty digit string is its value |
| `JsNumbers.ParseFloatDigits` | components/MovieForm.tsx:46 | `parseFloat` of a non-empty digit string is that integer |
| `JsNumbers.ParseNatString` | components/MovieForm.tsx:45-46 | both parsers read a rendered natural number back as itself, and `Number.isInteger` holds of it |
| `MovieFormModel.RatingText` | components/MovieForm.tsx:25 | the rating text of a movie is never empty, so the `|| '1'` default applies only when the rating is missing |
| `MovieFormModel.Prefill` | components/MovieForm.tsx:21-34 | edit mode takes the movie's title, genre and poster (missing ones as `''`) and its rating's `toString` (negative ones included), or `'1'` without one; create mode gives `''`, `''`, `'1'`, `''` |
| `MovieFormModel.NullIfEmpty` | components/MovieForm.tsx:58 | a blank poster is sent as `null`, any other as itself |
| `MovieFormModel.Validate` | components/MovieForm.tsx:40-59 | only the two check messages can come out; a payload that comes out is normal: non-empty trimmed title and genre, rating 1 to 5, no blank poster |
| `MovieFormModel.ValidateVerdict` | components/MovieForm.tsx:40-59 | the required-fields message exactly when a trimmed name is empty; the rating message exactly when both names are present and the rating check fails; otherwise the trimmed fields, the `parseInt` rating and the poster or `null` |
| `MovieFormModel.RevalidateNormal` | components/MovieForm.tsx:54-59 | a normal payload, shown back in the form, validates to itself |
| `MovieFormModel.ValidateIdempotent` | components/MovieForm.tsx:54-59 | validating the fields of an accepted payload gives the same payload |
| `MovieFormModel.EditRoundTrip` | components/MovieForm.tsx:22-26 | a movie saved from a normal payload, opened for edit and submitted unchanged, sends that payload again |
| `MovieFormModel.CreateModeRequiresNames` | components/MovieForm.tsx:28-31 | the blank create-mode form fails with the required-fields message |
| `MovieFormModel.DecimalRatings` | components/MovieForm.tsx:117-122 | for a plain decimal number, the keystroke filter and the submit check both accept exactly 1 to 5 |
| `MovieFormModel.RatingRejected` | components/MovieForm.tsx:40-49 | with both trimmed names present, a rating the submit check refuses gives the rating message |
| `MovieFormModel.EmptyRatingRejectedAtSubmit` | components/MovieForm.tsx:45-49 | `''` passes the rating filter, and with both names present it fails at submit with the rating message |
| `JsNumbers.ParseIntStops` | components/MovieForm.tsx:45 | `parseInt` of a string that starts with a run of digits reads exactly that run |
| `JsNumbers.ParseFloatStops` | components/MovieForm.tsx:46 | `parseFloat` of a string that starts with a run of digits not followed by `.` reads that run, scaled by any exponent that follows |
| `MovieFormModel.NumberThenExponent` | components/MovieForm.tsx:45-46 | for a number followed by an exponent part, `parseInt` reads the number and `parseFloat` reads the number scaled by the exponent |
| `MovieFormModel.TimesTenExponent` | components/MovieForm.tsx:45-46 | `n` followed by `e1` is `10 * n` to `parseFloat` and `n` to `parseInt` |
| `MovieFormModel.TenthExponent` | components/MovieForm.tsx:45-46 | `10 * n` followed by `e-1` is `n` to `parseFloat` and `10 * n` to `parseInt` |
| `MovieFormModel.ExponentRatings` | components/MovieForm.tsx:117-122 | for every rating `n` from 1 to 5: the filter refuses `n` followed by `e1`, which the submit check accepts as rating `n`; the filter admits `10 * n` followed by `e-1`, which the submit check refuses |
| `MovieFormModel.MovieForm.constructor` | components/MovieForm.tsx:13-18 | a new form holds the prefilled fields for its `movie`, is not submitting and has no error |
| `MovieFormModel.MovieForm.ResetFromMovie` | components/MovieForm.tsx:21-34 | after a `movie` prop change the fields are the prefill for it and the error is cleared; `isSubmitting` is untouched |
| `MovieFormModel.MovieForm.ChangeTitle` | components/MovieForm.tsx:83 | the title becomes the typed text |
| `MovieFormModel.MovieForm.ChangeGenre` | components/MovieForm.tsx:100 | the genre becomes the typed text |
| `MovieFormModel.MovieForm.ChangePosterImage` | components/MovieForm.tsx:141 | the poster URL becomes the typed text |
| `MovieFormModel.MovieForm.ChangeRating` | components/MovieForm.tsx:117-122 | the rating takes the typed text when it is `''` or a whole number from 1 to 5 by `parseFloat`, and is unchanged otherwise |
| `MovieFormModel.MovieForm.StartSubmit` | components/MovieForm.tsx:36-59 | the error is cleared; a failed check sets its message, `onSubmit` is not called and `isSubmitting` is unchanged; otherwise `onSubmit` is called with the validated payload and `isSubmitting` is true; the fields are untouched |
| `MovieFormModel.MovieForm.FinishSubmit` | components/MovieForm.tsx:60-64 | `isSubmitting` is false afterwards; a rejection's message (or "Failed to save movie" for a non-`Error`) becomes the error; a success leaves the error as it was |
| `MovieFormModel.MovieForm.Submit` | components/MovieForm.tsx:36-65 | `onSubmit` is called exactly when validation succeeds, with the validated payload, and afterwards the form is not submitting and its error is `null` or the rejection's message; a failed check leaves its message and `isSubmitting` as it was; the fields never change |
| `Api.QueryParams` | lib/api.ts:5-8 | a `search` entry exactly when the search is non-empty, first and with its text; always exactly one `sort` entry, last, `asc` when no order is given |
| `Api.BuildQuery` | lib/api.ts:5-8 | appending to an empty list builds exactly `QueryParams` |
| `Api.Caught` | lib/api.ts:17-21 | a `TypeError` whose message contains "fetch" becomes the "Cannot connect to backend API at …" error; every other error and every success passes unchanged |
| `Api.AllMoviesResult` | lib/api.ts:10-22 | success exactly when the answer is ok and its body reads, with its data; a status error gives "Failed to fetch movies: {status} {statusText}. {body}"; a thrown error goes through the connectivity mapping; a failed body read of an ok answer passes unchanged |
| `Api.StatusErrorKeepsItsText` | lib/api.ts:12-21 | whatever the body, the list call's status message contains "fetch" but is not replaced by the connection message, because it is not a `TypeError` |
| `Api.HttpErrorMessage` | lib/api.ts:40-50 | never empty; the body's non-empty `message`, else its non-empty `title`, else "Failed to {action} movie: {status} {statusText}"; for an unparsable or `null` body, that message plus ". {body}" when the body is non-empty |
| `Api.DeriveHttpErrorMessage` | lib/api.ts:42-48 | the step-by-step assignments compute `HttpErrorMessage` |
| `Api.SaveMovieResult` | lib/api.ts:32-57 | success exactly when the answer is ok and its body reads, with its movie; a status error gives a plain `Error` with the derived message, not remapped; a thrown error goes through the connectivity mapping; a failed body read of an ok answer passes unchanged |
| `Api.CreateMovieResult` | lib/api.ts:31-57 | as `SaveMovieResult` with the action "create" |
| `Api.UpdateMovieResult` | lib/api.ts:60-86 | as `SaveMovieResult` with the action "update" |
| `Api.MovieByIdResult` | lib/api.ts:25-29 | success exactly when the answer is ok; a status error gives "Failed to fetch movie"; a thrown error or failed body read passes unchanged, with no connectivity mapping |
| `Api.DeleteMovieResult` | lib/api.ts:89-94 | success exactly when the answer is ok; a status error gives "Failed to delete movie"; a thrown error passes unchanged, with no connectivity mapping |
| `JsText.Contains` | lib/api.ts:18 | `includes` can only hold when the needle is no longer than the text; `ContainsIffOccurs` states exactly when it holds |
| `JsNumbers.IsInteger` | components/MovieForm.tsx:46 | `Number.isInteger` holds only of a finite value equal to the whole number `num / den` |
| `JsNumbers.Between` | components/MovieForm.tsx:119 | `lo <= x && x <= hi` fails for NaN and the infinities, and for an integer is the plain comparison |
| `JsNumbers.ParseInt` | components/MovieForm.tsx:45 | `parseInt(s, 10)` finds a number only when `s` contains a digit; `ParseIntStops`, `ParseIntDigits` and `ParseIntToString` give its value for texts that start with a digit and for the rendering of every integer, negative ones included |
| `JsNumbers.ParseFloat` | components/MovieForm.tsx:46 | a finite `parseFloat` result needs a digit in `s`; `ParseFloatStops`, `ParseFloatDigits`, `ParseFloatFraction` and `NumberThenExponent` give its value for texts that start with a digit |
| `JsNumbers.ParseFloatFraction` | components/MovieForm.tsx:46 | `parseFloat` reads whole digits, a `.` and one fraction digit as that many tenths |
| `MovieFormModel.TenthsRating` | components/MovieForm.tsx:46 | a value of `m` and one more digit `c` in tenths is a whole number exactly when `c` is `0`, and a whole number from 1 to 5 exactly when, in addition, `m` is from 1 to 5 |
| `MovieFormModel.FractionAccepted` | components/MovieForm.tsx:45-46 | for a text of `k` digits, a `.` and one more digit, `parseInt` reads the `k` digits, and the submit check accepts the text exactly when the last digit is 0 and the `k` digits are worth 1 to 5 |
| `MovieFormModel.FractionAdmitted` | components/MovieForm.tsx:117-122 | the keystroke filter admits a text of `k` digits, a `.` and one more digit exactly when the last digit is 0 and the `k` digits are worth 1 to 5, as the submit check does |
| `MovieFormModel.TenthsAdmitted` | components/MovieForm.tsx:119 | the filter admits any text `parseFloat` reads as `m` and a digit `c` in tenths exactly when `c` is 0 and `m` is from 1 to 5 |
| `MovieFormModel.TenthsAccepted` | components/MovieForm.tsx:45-46 | the submit check accepts any text that `parseInt` reads as `m` and `parseFloat` as `m` and a digit `c` in tenths exactly when `c` is 0 and `m` is from 1 to 5 |
| `JsNumbers.ParseNegativeString` | components/MovieForm.tsx:45 | `parseInt` reads a `-` followed by the rendering of `m` as `-m` |
| `JsNumbers.ParseIntToString` | components/MovieForm.tsx:25 | `parseInt` reads the `toString` of every integer, negative ones included, back as that integer |
| `MovieFormModel.RatingAccepted` | components/MovieForm.tsx:45-46 | the submit check's rating condition accepts only text with a digit in it; `DecimalRatings`, `ExponentRatings` and `FractionAccepted` say which texts it accepts |
| `MovieFormModel.RatingInputAdmitted` | components/MovieForm.tsx:119 | the filter admits `''` and otherwise only text with a digit in it; `DecimalRatings`, `ExponentRatings` and `FractionAdmitted` say which texts it admits |
| `MovieTypes.MessageOr` | app/page.tsx:25 | `err instanceof Error ? err.message : fallback`: the message of an `Error`, the fallback for anything else |
| `HomePage.Home.ModalOpen` | app/page.tsx:143 | under the mode invariant the modal is open exactly when one of the two forms, and not both, is selected |
| `HomePage.Home.ModalHeading` | app/page.tsx:147 | the heading is "Edit Movie" exactly when a movie is being edited, and "Create New Movie" exactly when none is |
| `HomePage.Home.ActiveHandler` | app/page.tsx:151 | the form's `onSubmit` is `handleUpdate` exactly when the heading is "Edit Movie" |
| `HomePage.SearchArgument` | app/page.tsx:22 | an empty search box is passed as absent, any other text as itself |
| `HomePage.SearchBoxQuery` | app/page.tsx:22 | the list request has a `search` entry exactly when the search box is non-empty; its exact parameters in both cases |
| `HomePage.Home.constructor` | app/page.tsx:10-16 | no movies, loading, no error, empty search, ascending sort, no form, nothing being edited, no request made; the mode invariant holds |
| `HomePage.Home.BeginLoad` | app/page.tsx:19-22 | loading is true and the error is cleared while the list request for the current search and sort is issued |
| `HomePage.Home.EndLoad` | app/page.tsx:23-30 | a successful answer replaces the list wholesale and keeps the error; a failed one keeps the list and sets the error message (or "Failed to load movies"); loading is false |
| `HomePage.Home.LoadMovies` | app/page.tsx:18-31 | one list request; afterwards not loading, and either the new list with no error, or the old list with the error |
| `HomePage.Home.ChangeSearch` | app/page.tsx:33-36 | the search text is stored and one list request with it is issued; the mode is kept |
| `HomePage.Home.ChangeSort` | app/page.tsx:33-36 | the sort order is stored and one list request with it is issued; the mode is kept |
| `HomePage.Home.HandleCreate` | app/page.tsx:38-49 | a create request is issued; on success the create form closes and the list reloads, nothing is rethrown; on failure the error is set, mode, list and loading are kept, and the error (the derived message, the mapped connection error or the unmapped body-read error) is rethrown; the mode invariant is kept |
| `HomePage.Home.HandleUpdate` | app/page.tsx:51-63 | with no movie being edited nothing changes and no request is made; otherwise an update request for the edited movie's id; on success editing ends and the list reloads; on failure the error is set, the mode is kept and the error is rethrown |
| `HomePage.Home.HandleDelete` | app/page.tsx:65-72 | a delete request is issued; on success the list reloads; on failure the error becomes the failure's message, the list is kept and nothing is rethrown |
| `HomePage.Home.HandleEdit` | app/page.tsx:74-77 | the movie becomes the edited one and the create form closes |
| `HomePage.Home.HandleCancel` | app/page.tsx:79-82 | neither form is selected afterwards |
| `HomePage.Home.OpenCreateForm` | app/page.tsx:119-122 | the create form opens and no movie is being edited |
| `HomePage.Home.Dismiss` | app/page.tsx:134 | the error is cleared and nothing else changes |
| `HomePage.ModalModes` | app/page.tsx:143-151 | in a valid page the modal is open exactly when a form is selected; the heading is "Edit Movie" and the handler is `handleUpdate` exactly when a movie is being edited; the create form always gets the create handler and heading |
| `HomePage.SubmitModal` | app/page.tsx:151 | the form's checks run first; if they fail no request is made, the page is as it was, the form shows the check's message and `isSubmitting` is kept. Otherwise the form ends not submitting with its fields kept, the search and sort are kept, and: when editing, an ok update issues the update of the edited movie's id and then the reload, ends editing, reloads the list and clears the form's error; when not editing, an ok create issues the create and then the reload, closes the create form, reloads the list and clears the form's error; an answer that is not ok issues only that request, keeps the mode, list and loading flag, sets the page's error to the thrown error's message or the page's fallback ("Failed to update movie" / "Failed to create movie"), and sets the form's error to the same thrown error's message or "Failed to save movie" |
| `HomePage.Home.HandleSubmit` | app/page.tsx:151 | the form's `onSubmit` runs `handleUpdate` when a movie is being edited and `handleCreate` otherwise, with that handler's whole outcome; what it rethrows on a failed answer is `SaveError` of that answer |
| `HomePage.SaveError` | lib/api.ts:40-56 | what a failed create or update throws: for a status error a plain `Error` with a non-empty derived message; for a rejection the `catch` block's mapping; for a failed body read the error as it is |
| `HomePage.FormAndPageMessages` | app/page.tsx:45-47 | after a failed save the page's banner and the form show the same text exactly when the thrown value is an `Error`; the thrown value is a non-`Error` exactly when a rejection or a failed body read carried one, and then the two fallbacks ("Failed to save movie" against "Failed to create movie" or "Failed to update movie") differ |

## Left out

- Network I/O (`fetch`, `response.text()`, `response.json()`) is not modelled. Every answer is a parameter. The JSON parse of an error body is also a parameter, and the model does not check that it agrees with the body text.
- Interleaving of overlapping loads is not modelled. The source fires a load on every keystroke, and a stale answer can arrive last. Each handler is one atomic step here. `loadMovies` is split at its await into `BeginLoad` and `EndLoad`, and the form's submit into `StartSubmit` and `FinishSubmit`; only the form's submit lets another handler (the page's) run between its halves.
- `parseFloat` values are exact decimals. Rounding to IEEE doubles is not modelled, so huge exponents (`1e400`, which JavaScript reads as Infinity), tiny ones (`1e-400`, which it reads as 0) and long fractions (`1.0000000000000001`, which it reads as 1, so the filter admits it and the submit check accepts it as rating 1, where the model refuses it in both places) differ from the source.
- JSON properties `message` and `title` are strings or absent. Non-string values, whose truthiness and rendering differ, are not modelled.
- A movie's `rating` is an integer. Backend values that are not whole numbers, and their `toString`, are not modelled.
- `JsText.IntToString` renders every integer as plain digits. JavaScript renders integers of 1e21 or more (in magnitude) with an exponent (`"3e+21"`). Editing a movie with such a rating and submitting it unchanged sends rating 3 in the source; the model's `Prefill` does not cover that.
- `URLSearchParams` percent-encoding is not modelled. The query is a list of key/value pairs.
- The `NEXT_PUBLIC_API_URL` override of the base URL is not modelled. The connection message names the built-in address.
- Browser-enforced input constraints are not modelled: `maxLength`, `required`, `type="url"`, `type="number"` sanitising and the disabled buttons while submitting. The submit logic does not check them.
- Rendering is not modelled: the card list, the spinner, the image preview and its `onError` hiding, the button labels and the empty-list texts.
- `components/MovieCard.tsx` is not part of this model. It is presentation only: a `window.confirm` before delete, and date formatting.
- `types/movie.ts` declares types only.
- `Api.DeleteMovieResult` and `HomePage.Home.HandleDelete` require that the answer is not `BodyRejected`: `deleteMovie` reads no body, so that outcome cannot occur for it.
- Logging through `console.error` is not modelled.
- React's asynchronous state batching is not modelled. Each `setX` is taken to take effect at once.
- `JsNumbers.ParseInt` follows the source on every text, but no lemma states its value for a text with leading whitespace or a `+` sign.
- `JsNumbers.ParseFloat` follows the source on every text, but no lemma states its value for a text with leading whitespace, a `+` sign, a leading `.`, or more than one fraction digit.
- `HomePage.SubmitModal`: the form's `isSubmitting` is true while the page handler runs. This is shown by the contracts of `StartSubmit` and `FinishSubmit`. `SubmitModal`'s own contract does not state it.
