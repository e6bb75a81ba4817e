# Vedic birth chart app — a Dafny model of its core

The app is a React Native client for a Vedic astrology service. A user signs
up or logs in, and enters a birth profile: name, gender, date, time and place
of birth. The user then sees the birth chart, drawn as a North-Indian diamond
wheel, and can exchange recorded voice messages. This project models the
logic of those screens and components. The server, the navigation stack and
the audio engine are not modelled: what they answer is a parameter of the
operations.

- `VedicChart`: `buildHouses`, which turns a list of planets into the twelve
  houses of the wheel.
  - House 1 is anchored on the sign of the first "Ascendant"/"Lagna" entry,
    else the first planet's sign, else "Aries".
  - The signs then follow cyclically.
  - Each other planet with a recognised sign is pushed into the house of its
    sign, as a two-letter code plus "R" when retrograde.
  - The loop is an imperative method over a twelve-element array. It is proved
    to build exactly `Houses(planets)`, a function of the input, and the
    properties of the wheel are proved about that function.
- `ChartGeometry`: the wheel's drawing.
  - The thirteen construction points of a chart of side `s` and the twelve
    house outlines.
  - The centroid each label is anchored at, and the two font sizes.
  - The label of each house, including the `TypeError` the drawing raises when
    a house has no sign.
- `BirthProfileForm`: the birth-profile screen.
  - Reading stored `YYYY-MM-DD` and `HH:MM` strings into dates, and formatting
    dates back.
  - The five required-field checks and the submit handler.
  - A JavaScript `Date` is represented by its calendar fields, or by the
    invalid date that `Number` produces from a non-numeric field.
- `SignUp` and `Login`: the checks and calls of the two authentication screens.
- `ApiErrors`: how the screens turn a rejected API call into the message they
  show.
- `VoiceRecording`: the hold-to-talk recorder.
  - Start and stop, the one-second interval that counts the duration, and the
    `m:ss` display.
  - The model counts running intervals explicitly. Pressing again while
    recording overwrites the interval handle without clearing it, and the model
    shows the leftover interval (`RestartLeavesIntervalRunning`).
- `AudioPlayback`: the voice-message player.
  - The status callback, play/pause with the jump back to the start near the
    end, the progress fraction and the `m:ss` display.
- `ChartView`: the birth-chart screen: the loading, error and chart views, the
  Sun and Moon key signs, and the planet rows.
- `JsBuiltins` and `Wrappers`: the JavaScript runtime behaviour the code relies
  on, written out.
  - Truncated `%`, `find`, `trim` with JavaScript's whitespace set, `split`,
    `padStart`, `join`, `String(n)`, and `Number(s)` on digit strings.
  - An `Option` type.

## Model

| member | source | states |
|---|---|---|
| VedicChart.SignIndex | src/components/VedicChartWheel.tsx:34 | `indexOf` on the twelve signs: -1 exactly for a name that is not a sign, otherwise the index holding that name |
| VedicChart.ZodiacAt | src/components/VedicChartWheel.tsx:38 | indexing the sign list gives a sign exactly for indices 0..11 and `undefined` (None) elsewhere |
| VedicChart.SignsDistinct | src/components/VedicChartWheel.tsx:8-12 | the twelve sign names are pairwise different |
| VedicChart.HouseNumber | src/components/VedicChartWheel.tsx:46 | the house number computed for a recognised sign is always within 1..12 |
| VedicChart.Placement | src/components/VedicChartWheel.tsx:43-46 | a planet is pushed into a house iff it is not an Ascendant/Lagna entry and its sign is recognised, and that house is within 1..12 |
| VedicChart.Houses | src/components/VedicChartWheel.tsx:36-40 | the result has twelve houses, numbered 1 to 12 in order |
| VedicChart.EmptyHouses | src/components/VedicChartWheel.tsx:36-40 | the fresh array is the initial table: numbered, signed from the anchor, with no occupants |
| VedicChart.PushOccupant | src/components/VedicChartWheel.tsx:42-49 | one loop pass turns the table for the planets seen so far into the table for one more planet |
| VedicChart.FilledSnoc | src/components/VedicChartWheel.tsx:43-48 | one loop step leaves the table unchanged for a skipped planet, and otherwise appends its occupant string to the end of its own house only |
| VedicChart.PlaceAll | src/components/VedicChartWheel.tsx:42-49 | the loop turns the empty table into the table for all the planets, in input order |
| VedicChart.BuildHouses | src/components/VedicChartWheel.tsx:27-52 | the loop over the planets returns exactly `Houses(planets)` |
| VedicChart.AscendantSign | src/components/VedicChartWheel.tsx:30-33 | with no planets the anchor is "Aries"; otherwise it is the sign of one of the planets |
| VedicChart.AnchorIsFirstAscendantEntry | src/components/VedicChartWheel.tsx:30-33 | the anchor is the sign of the first entry named "Ascendant" or "Lagna" |
| VedicChart.FirstPlanetIsAnchor | src/components/VedicChartWheel.tsx:33 | without such an entry, the first planet's sign is the anchor |
| VedicChart.EmptyInputHouses | src/components/VedicChartWheel.tsx:33-40 | with no planets: twelve empty houses, with house 1 in Aries and the signs in canonical order |
| VedicChart.HouseOneIsAscendant | src/components/VedicChartWheel.tsx:26 | with a recognised anchor, house 1 carries the anchor sign |
| VedicChart.SignsCycleFromAscendant | src/components/VedicChartWheel.tsx:38 | with a recognised anchor `a`, house `i + 1` carries sign `(a + i) mod 12` |
| VedicChart.SignsDistinctAcrossHouses | src/components/VedicChartWheel.tsx:36-40 | with a recognised anchor, no sign appears in two houses |
| VedicChart.EverySignHasAHouse | src/components/VedicChartWheel.tsx:36-40 | with a recognised anchor, every sign appears, sign `k` in house `((k - a + 12) mod 12) + 1` |
| VedicChart.UnrecognisedAscendantSigns | src/components/VedicChartWheel.tsx:34-38 | with an anchor that is not a sign name, house 1's sign is `undefined` and house `i + 1` carries sign `i - 1` |
| VedicChart.PlacedPlanetMatchesHouseSign | src/components/VedicChartWheel.tsx:44-48 | with a recognised anchor, the house a planet is pushed into carries that planet's sign |
| VedicChart.OccupantsMembership | src/components/VedicChartWheel.tsx:42-49 | a house holds a string iff some planet placed in that house has that string as its occupant |
| VedicChart.OccupantsAppend | src/components/VedicChartWheel.tsx:42-49 | occupants keep input order: the occupants of a concatenation are the concatenation of the occupants |
| VedicChart.OccupantsConserved | src/components/VedicChartWheel.tsx:42-49 | the houses hold exactly as many occupant strings as there are placed planets: none is lost or duplicated |
| VedicChart.FirstPlanetAnchorsHouseOne | src/components/VedicChartWheel.tsx:28-33 | without an Ascendant entry, house 1 carries the first planet's sign, and that planet's occupant string comes first in it |
| VedicChart.Abbreviation | src/components/VedicChartWheel.tsx:47 | every planet code in the table is the planet name's first two letters, so the code always equals `name.slice(0, 2)` |
| VedicChart.Occupant | src/components/VedicChartWheel.tsx:47-48 | an occupant string is the name's first two characters, plus "R" exactly for a retrograde planet, so at most three characters |
| VedicChart.Occupants | src/components/VedicChartWheel.tsx:42-49 | a house never holds more occupant strings than there are planets |
| VedicChart.SunInLeoVirgoRising | src/components/VedicChartWheel.tsx:27-52 | worked example (Sun in Leo, Ascendant in Virgo): house 1 is Virgo, the Sun is "Su" alone in house 12 (Leo), and all other houses are empty |
| ChartGeometry.Locate | src/components/VedicChartWheel.tsx:72-85 | for a chart at least four margins wide, every construction point lies inside the inset frame |
| ChartGeometry.HousePolygon | src/components/VedicChartWheel.tsx:88-101 | houses 1, 4, 7 and 10 are four-point kites and the others triangles, and all their points lie inside the inset frame |
| ChartGeometry.Centroid | src/components/VedicChartWheel.tsx:104-108 | the centroid lies within the bounding box of the vertices: some vertex is at or left of it, some at or right of it, and likewise above and below |
| ChartGeometry.OutlineShapes | src/components/VedicChartWheel.tsx:88-101 | houses 1, 4, 7 and 10 are kites with four vertices around the centre; all other houses are triangles |
| ChartGeometry.OutlinesHaveDistinctVertices | src/components/VedicChartWheel.tsx:88-101 | no outline repeats a construction point |
| ChartGeometry.BorderPoints | src/components/VedicChartWheel.tsx:72-85 | for `s > 8`, a point lies on the inset frame iff it is a corner or a midpoint |
| ChartGeometry.PointsDistinct | src/components/VedicChartWheel.tsx:72-85 | for `s > 8`, the thirteen points are pairwise distinct |
| ChartGeometry.DegenerateAtEight | src/components/VedicChartWheel.tsx:73-82 | at `s = 8` the corner A coincides with the quarter point P1 |
| ChartGeometry.QuarterPointsOffDiamond | src/components/VedicChartWheel.tsx:77-82 | P1 lies on the diagonal but, because of the margin, not on the inner diamond's edge E–H |
| ChartGeometry.CentroidWithin | src/components/VedicChartWheel.tsx:104-108 | the centroid lies inside any square band that holds all the vertices |
| ChartGeometry.LabelAnchorValue | src/components/VedicChartWheel.tsx:104-108 | the centroid of each house outline equals a closed-form anchor table |
| ChartGeometry.OppositeHousesSymmetric | src/components/VedicChartWheel.tsx:88-108 | house `i + 7`'s anchor is house `i + 1`'s anchor turned half-way round the centre |
| ChartGeometry.MirrorHousesSymmetric | src/components/VedicChartWheel.tsx:88-108 | house `i + 1` and house `13 - i` have mirror-image anchors |
| ChartGeometry.LabelAnchorInsideFrame | src/components/VedicChartWheel.tsx:104-108 | for `s >= 8`, every label anchor lies inside the inset frame |
| ChartGeometry.FontSize | src/components/VedicChartWheel.tsx:111 | the sign font is the larger of 8 and `s/30` |
| ChartGeometry.PlanetFontSize | src/components/VedicChartWheel.tsx:112 | the occupant font is the larger of 7 and `s/35` |
| ChartGeometry.PlanetFontNotLarger | src/components/VedicChartWheel.tsx:111-112 | the occupant font is never larger than the sign font |
| ChartGeometry.FontSizeRegimes | src/components/VedicChartWheel.tsx:111-112 | the sign font stays at 8 up to `s = 240` and grows linearly beyond; the occupant font stays at 7 up to 245 |
| ChartGeometry.HouseLabel | src/components/VedicChartWheel.tsx:149-196 | a label is absent exactly where `houses[i]` is missing, and throws exactly where the sign is `undefined` |
| ChartGeometry.SignAbbreviation | src/components/VedicChartWheel.tsx:154 | every entry of the abbreviation table is its sign's first three letters, so the label always equals `sign.slice(0, 3)` |
| ChartGeometry.JoinEmpty | src/components/VedicChartWheel.tsx:155 | the joined occupant text is empty iff there are no occupants, or one empty occupant |
| ChartGeometry.DrawnLabel | src/components/VedicChartWheel.tsx:152-195 | a drawn label shows the house number, the three-letter sign (starred and highlighted only in polygon 0) and the occupant line only when it is non-empty, stacked top to bottom |
| ChartGeometry.RecognisedAscendantDrawsAll | src/components/VedicChartWheel.tsx:149-196 | with a recognised anchor, all twelve labels are drawn, numbered 1..12 |
| ChartGeometry.UnrecognisedAscendantThrows | src/components/VedicChartWheel.tsx:152-154 | with an anchor that is not a sign name, the first label throws |
| BirthProfileForm.FullYear | src/screens/BirthProfileInputScreen.tsx:27 | `new Date` reads years 0..99 as 1900..1999 and keeps all other years |
| BirthProfileForm.MakeDate | src/screens/BirthProfileInputScreen.tsx:27 | the date is valid iff all three fields are numbers and the day lies within 10^8 days of 1 January 1970 (ECMAScript's MakeDay and TimeClip); a valid date holds those fields at midnight |
| BirthProfileForm.DayNumberInYear | src/screens/BirthProfileInputScreen.tsx:27 | for a month 0..11 the day number is the days to the year's 1 January plus the days before the month plus the day less one |
| BirthProfileForm.YearsRepresentable | src/screens/BirthProfileInputScreen.tsx:27 | every day of the years 100 to 275759 is within the range of `Date` |
| BirthProfileForm.LastRepresentableDay | src/screens/BirthProfileInputScreen.tsx:27 | 13 September 275760 is the last day `Date` can hold; 14 September 275760 is beyond it |
| BirthProfileForm.LeapSeptember | src/screens/BirthProfileInputScreen.tsx:27 | in a leap year, 244 days precede September |
| BirthProfileForm.YearThreeHundredThousandUnrepresentable | src/screens/BirthProfileInputScreen.tsx:27 | 1 January 300000 is beyond the range of `Date` |
| BirthProfileForm.Decrement | src/screens/BirthProfileInputScreen.tsx:27 | `Number(m) - 1`, with NaN staying NaN |
| BirthProfileForm.SetTime | src/screens/BirthProfileInputScreen.tsx:33-34 | today's date at the given hour and minute, with 0 seconds and 0 ms; the date is invalid iff either field is NaN |
| BirthProfileForm.ParseDate | src/screens/BirthProfileInputScreen.tsx:24-28 | a date string is read iff it holds exactly two dashes; a date read is at midnight, with a year of at least 100 since two-digit years become 19xx |
| BirthProfileForm.ParseTime | src/screens/BirthProfileInputScreen.tsx:30-36 | a time string is read iff it holds at least one colon; the time read is on today's date with seconds and milliseconds cleared |
| BirthProfileForm.FormatDate | src/screens/BirthProfileInputScreen.tsx:64-69 | month and day are always two digits, so the two dashes sit 6 and 3 characters from the end; an invalid date prints "NaN-NaN-NaN" |
| BirthProfileForm.FormatTime | src/screens/BirthProfileInputScreen.tsx:71-75 | hours and minutes below 100 print as five characters with the colon in the middle; an invalid date prints "NaN:NaN" |
| BirthProfileForm.DateReadsAsMakeDate | src/screens/BirthProfileInputScreen.tsx:24-28 | reading a formatted date with non-negative fields hands exactly the year, month and day that were formatted to `new Date` |
| BirthProfileForm.DateRoundTrip | src/screens/BirthProfileInputScreen.tsx:24-28 | reading a formatted date with a year 0..275759 gives back that date at midnight, with years below 100 moved to 19xx, when that day exists in the year `Date` builds |
| BirthProfileForm.FarDateReadsInvalid | src/screens/BirthProfileInputScreen.tsx:24-28 | a formatted date beyond the range of `Date` reads back as an invalid date, which formats as "NaN-NaN-NaN" |
| BirthProfileForm.DateStringStable | src/screens/BirthProfileInputScreen.tsx:64-69 | for the years 100 to 275759, formatting, reading and formatting again gives the same string |
| BirthProfileForm.TwoDigitYearShifts | src/screens/BirthProfileInputScreen.tsx:27 | a date in the years 0..99 that exists 1900 years later is read back there |
| BirthProfileForm.LeapDayOfYearZeroLost | src/screens/BirthProfileInputScreen.tsx:27 | 29 February of the year 0 is a real day, but the 29 February 1900 that `Date` would build from it is not |
| BirthProfileForm.NegativeYearUnreadable | src/screens/BirthProfileInputScreen.tsx:25-26 | a date before the year 0 is formatted with a leading minus and is read as no date at all |
| BirthProfileForm.TimeRoundTrip | src/screens/BirthProfileInputScreen.tsx:30-36 | reading a formatted time gives today's date at that hour and minute |
| BirthProfileForm.TimeStringStable | src/screens/BirthProfileInputScreen.tsx:71-75 | formatting, reading and formatting a time again gives the same string |
| BirthProfileForm.ParseTimeIgnoresExtraParts | src/screens/BirthProfileInputScreen.tsx:32-34 | parts after the minutes (e.g. seconds) are ignored |
| BirthProfileForm.FormatDateShape | src/screens/BirthProfileInputScreen.tsx:64-69 | a four-digit-year date is printed as ten characters with dashes at positions 4 and 7 |
| BirthProfileForm.Validate | src/screens/BirthProfileInputScreen.tsx:87-94 | there is no problem iff the name and place hold non-whitespace, a gender is chosen, and a date and a time are set |
| BirthProfileForm.ValidateFirstFailure | src/screens/BirthProfileInputScreen.tsx:87-94 | the problem reported is the first missing field in the order name, gender, date, time, place, and conversely |
| BirthProfileForm.MessagesDistinct | src/screens/BirthProfileInputScreen.tsx:88-92 | different missing fields show different messages |
| BirthProfileForm.Payload | src/screens/BirthProfileInputScreen.tsx:106-112 | the request body carries the trimmed name and place and the gender as chosen |
| BirthProfileForm.InvalidDateIsSent | src/screens/BirthProfileInputScreen.tsx:90-91 | an invalid date passes validation and is sent as "NaN-NaN-NaN" / "NaN:NaN" |
| BirthProfileForm.Answer | src/screens/BirthProfileInputScreen.tsx:113-122 | on success no error shows, an edit goes back and a new profile sets has-a-profile and opens its preview; on failure the screen stays with a non-empty error |
| BirthProfileForm.Submit | src/screens/BirthProfileInputScreen.tsx:96-126 | a request is sent iff validation passes; otherwise the screen stays with a non-empty message and unchanged flags; after a request loading ends |
| BirthProfileForm.SubmitIncomplete | src/screens/BirthProfileInputScreen.tsx:97-102 | a form with a missing field sends nothing, stays on the screen, shows that field's message and leaves the loading and has-a-profile flags alone |
| BirthProfileForm.SubmitComplete | src/screens/BirthProfileInputScreen.tsx:104-112 | a complete form sends its trimmed fields and its formatted date and time, and loading ends |
| BirthProfileForm.SubmitAccepted | src/screens/BirthProfileInputScreen.tsx:113-118 | on success there is no error; an edit goes back, and a new profile sets has-a-profile and opens its chart preview |
| BirthProfileForm.SubmitRefused | src/screens/BirthProfileInputScreen.tsx:119-122 | on failure the screen stays and shows the server's non-empty detail or the fixed message, never an empty one |
| BirthProfileForm.ProfileScreen.constructor | src/screens/BirthProfileInputScreen.tsx:45-62 | the fields start from the stored profile; stored date and time strings are read only when non-empty |
| BirthProfileForm.ProfileScreen.OnDateChange | src/screens/BirthProfileInputScreen.tsx:77-80 | a chosen date replaces the current one; a dismissed picker keeps it |
| BirthProfileForm.ProfileScreen.OnTimeChange | src/screens/BirthProfileInputScreen.tsx:82-85 | a chosen time replaces the current one; a dismissed picker keeps it |
| BirthProfileForm.ProfileScreen.OnDateInput | src/screens/BirthProfileInputScreen.tsx:193-196 | a typed string that reads as a date (even an invalid one) replaces the current date; any other string is ignored |
| BirthProfileForm.ProfileScreen.OnTimeInput | src/screens/BirthProfileInputScreen.tsx:252-255 | a typed string that reads as a time replaces the current time; any other string is ignored |
| BirthProfileForm.ProfileScreen.HandleSubmit | src/screens/BirthProfileInputScreen.tsx:96-126 | the request, the navigation and the new error, loading and has-a-profile state are exactly those of `Submit` for the form as it was |
| SignUp.Check | src/screens/SignUpScreen.tsx:30-37 | "All fields are required" iff some field is whitespace only; otherwise "too short" iff the untrimmed password has fewer than 6 characters |
| SignUp.Attempted | src/screens/SignUpScreen.tsx:27-50 | `register` is called iff the checks pass; a refused form shows a non-empty message and keeps loading; after a call loading ends, with an error iff the call failed |
| SignUp.RefusedAttempt | src/screens/SignUpScreen.tsx:28-37 | a failed check registers nothing, shows its message and leaves loading alone |
| SignUp.RegisteringAttempt | src/screens/SignUpScreen.tsx:39-49 | a passing form registers with the trimmed email and name and the untrimmed password; loading ends, and there is no error iff registration succeeds |
| SignUp.PaddedPasswordAccepted | src/screens/SignUpScreen.tsx:34 | a password of five spaces and one letter passes the length rule and is sent with its spaces |
| SignUp.SignUpForm.HandleSignUp | src/screens/SignUpScreen.tsx:27-50 | the call made and the new error and loading state are exactly those of `Attempted` |
| Login.Complete | src/screens/LoginScreen.tsx:29-32 | the form is complete iff both fields hold something besides whitespace |
| Login.Attempted | src/screens/LoginScreen.tsx:26-44 | `login` is called iff the form is complete; otherwise "Email and password are required" shows and loading is kept; after a call loading ends, with an error iff the call failed |
| Login.AttemptCallsLogin | src/screens/LoginScreen.tsx:26-36 | a login call is made iff both fields hold non-whitespace, with the email trimmed and the password as typed; otherwise the screen asks for both fields |
| Login.AttemptError | src/screens/LoginScreen.tsx:35-43 | after a call, there is no error iff the login succeeded |
| Login.LoginForm.HandleLogin | src/screens/LoginScreen.tsx:26-44 | the call made and the new error and loading state are exactly those of `Attempted` |
| ApiErrors.ErrorText | src/screens/SignUpScreen.tsx:44-45 | the server's detail when it is non-empty, else the screen's fallback message |
| ApiErrors.ErrorTextNonEmpty | src/screens/LoginScreen.tsx:39 | with a non-empty fallback, the error shown is never empty |
| VoiceRecording.FormatDuration | src/components/VoiceRecorder.tsx:116-120 | the display holds a colon, and for a non-negative count the seconds after it are always two characters |
| VoiceRecording.DurationReadsBack | src/components/VoiceRecorder.tsx:116-120 | the displayed `m:ss` splits into two numerals, with the seconds two digits below 60, and `m * 60 + s` equals the seconds counted |
| VoiceRecording.Start | src/components/VoiceRecorder.tsx:52-88 | a disabled recorder ignores the press; a lingering recording is unloaded; with permission and a prepared recording, recording starts from 0 under a new interval |
| VoiceRecording.Tick | src/components/VoiceRecorder.tsx:82-84 | an interval firing adds one second and changes nothing else |
| VoiceRecording.Stop | src/components/VoiceRecorder.tsx:90-114 | without a recording nothing happens; otherwise the recorder returns to rest, the held interval is cleared, and the URI is reported only after a successful stop with a non-empty URI |
| VoiceRecording.PressFromIdle | src/components/VoiceRecorder.tsx:52-88 | a press from rest either starts a recording counted from 0 or leaves the recorder at rest |
| VoiceRecording.ReleaseFromActive | src/components/VoiceRecorder.tsx:90-114 | a release during a recording returns to rest, stops one interval and reports at most one URI, the recording's own |
| VoiceRecording.PressTicksRelease | src/components/VoiceRecorder.tsx:52-114 | press, `n` seconds, release: the display counts `n` and then the recorder is at rest with no interval running |
| VoiceRecording.RestartLeavesIntervalRunning | src/components/VoiceRecorder.tsx:58-65 | pressing again while recording leaves the first interval running after the release, so the duration moves while at rest |
| VoiceRecording.Recorder.constructor | src/components/VoiceRecorder.tsx:19-24 | the recorder starts at rest, with no interval and no URI reported |
| VoiceRecording.Recorder.StartRecording | src/components/VoiceRecorder.tsx:52-88 | the new state is `Start` of the old one |
| VoiceRecording.Recorder.OnInterval | src/components/VoiceRecorder.tsx:82-84 | the new state is `Tick` of the old one |
| VoiceRecording.Recorder.StopRecording | src/components/VoiceRecorder.tsx:90-114 | the new state is `Stop` of the old one |
| AudioPlayback.FormatMs | src/components/AudioPlayer.tsx:69-74 | the display holds a colon, and for a non-negative count the seconds after it are always two characters |
| AudioPlayback.FormatMsAgreesWithDuration | src/components/AudioPlayer.tsx:69-74 | a millisecond count is shown as the recorder shows its whole seconds |
| AudioPlayback.FormatMsTruncates | src/components/AudioPlayer.tsx:70 | the milliseconds within a second do not show |
| AudioPlayback.MsReadsBack | src/components/AudioPlayer.tsx:69-74 | the displayed `m:ss` reads back as the count's whole seconds |
| AudioPlayback.Progress | src/components/AudioPlayer.tsx:76 | 0 while the duration is unknown, otherwise the fraction with `progress * duration = position` |
| AudioPlayback.ProgressBounded | src/components/AudioPlayer.tsx:76 | within the sound the progress lies in 0..1 and is 1 at the end |
| AudioPlayback.OnStatus | src/components/AudioPlayer.tsx:32-41 | after cleanup, or for an unloaded status, nothing changes; otherwise position, duration (0 if unknown) and playing are mirrored, and a finished sound rewinds to 0 and stops |
| AudioPlayback.Toggle | src/components/AudioPlayer.tsx:56-67 | nothing without a sound, pause while playing, otherwise play, seeking to 0 iff the duration is known and the position is within 100 ms of the end |
| AudioPlayback.UnmountedIgnoresStatus | src/components/AudioPlayer.tsx:32-53 | after cleanup, no sequence of status reports changes the state |
| AudioPlayback.FinishedThenPressed | src/components/AudioPlayer.tsx:37-62 | after a "just finished" report a press plays again, seeking only when the whole sound is at most 100 ms long |
| AudioPlayback.PressedAtEndSeeks | src/components/AudioPlayer.tsx:62-65 | a press with the position within 100 ms of the end seeks to the start before playing |
| AudioPlayback.UnknownDurationNeverSeeks | src/components/AudioPlayer.tsx:35-62 | a sound whose duration is not reported never seeks |
| AudioPlayback.Player.constructor | src/components/AudioPlayer.tsx:14-20 | no sound, mounted, paused at 0 with duration 0 |
| AudioPlayback.Player.SoundCreated | src/components/AudioPlayer.tsx:29-46 | `soundRef` is set once creation succeeds |
| AudioPlayback.Player.OnPlaybackStatus | src/components/AudioPlayer.tsx:32-41 | the new state is `OnStatus` of the old one |
| AudioPlayback.Player.Unmount | src/components/AudioPlayer.tsx:50-53 | the cleanup clears the mounted flag |
| AudioPlayback.Player.TogglePlay | src/components/AudioPlayer.tsx:56-67 | the command sent is `Toggle` of the current state, and the state is unchanged |
| ChartView.RetroLabel | src/screens/ChartViewScreen.tsx:18-20 | the mark is non-empty iff the planet is retrograde, and then it is " (R)" |
| ChartView.FindPlanet | src/screens/ChartViewScreen.tsx:22-24 | None iff no planet has the name; otherwise the first planet with that name |
| ChartView.KeySignOfFirst | src/screens/ChartViewScreen.tsx:63-64 | a key sign is the sign of the first planet with that name |
| ChartView.KeySign | src/screens/ChartViewScreen.tsx:87-97 | without a planet of that name the key sign is "—" |
| ChartView.ScreenHouses | src/screens/ChartViewScreen.tsx:65 | no houses for an empty chart, otherwise `buildHouses` |
| ChartView.WheelShownIffPlanets | src/screens/ChartViewScreen.tsx:65-80 | the wheel is drawn iff the chart has planets, and then it has twelve houses |
| ChartView.ScreenWheelAnchoredOnAPlanet | src/screens/ChartViewScreen.tsx:65 | the wheel the screen draws has twelve houses and is anchored on some planet's sign, never on the "Aries" fallback; when that sign is a zodiac sign the first house shows it, so a chart whose signs are all zodiac signs opens on one of its planets' signs |
| ChartView.Loaded | src/screens/ChartViewScreen.tsx:31-42 | loading ends; a loaded chart is stored, a failure sets the fixed error |
| ChartView.Render | src/screens/ChartViewScreen.tsx:44-60 | a spinner iff loading; the error iff loading is done, there is an error and no chart; the page has one row per planet |
| ChartView.Row | src/screens/ChartViewScreen.tsx:128-141 | a row's name cell is the planet's name followed by exactly the retrograde mark, longer than the name iff the planet is retrograde; its position cell shows the planet's sign |
| ChartView.FailedLoadShowsError | src/screens/ChartViewScreen.tsx:36-58 | a failed load shows "Could not load birth chart." |
| ChartView.LoadedChartPage | src/screens/ChartViewScreen.tsx:60-131 | a loaded chart shows the wheel iff it has planets, one row per planet in order, and "—" for a missing Sun or Moon |
| ChartView.EmptyChartPage | src/screens/ChartViewScreen.tsx:60-97 | an empty chart shows no wheel, no rows and both placeholders |

## Left out

- Rendering is not modelled: styling, SVG elements and colours, the pulse animation, the picker visibility flags and `KeyboardAvoidingView`.
- Only the positions and texts of the labels are modelled.
- The degree printed after the sign in the planet table's position cell (`toFixed(1)` and the degree sign) and the aspects list of the chart screen are not modelled.
- `BirthProfileForm.MakeDate` keeps the calendar fields as given.
  - JavaScript `Date` would roll an out-of-range day or month into the next one.
  - The round-trip lemmas therefore require that the date `Date` builds, after moving a two-digit year to 19xx, is a real calendar day (`InCalendar`). 29 February of the year 0 is excluded: it is a real day, but 1900 has no 29 February (`LeapDayOfYearZeroLost`).
  - Time zones and daylight saving are not modelled. The range of `Date` (TimeClip) is applied to the day number as if local time were UTC, so the model places its edge at midnight of 13/14 September 275760, where JavaScript shifts it by the local offset of a few hours.
- `BirthProfileForm.DateRoundTrip` and `BirthProfileForm.DateStringStable` promise nothing for years after 275759. In those years a date may lie beyond the range of `Date`, and then it reads back as an invalid date (`FarDateReadsInvalid`).
- `BirthProfileForm.SetTime` keeps the hour and minute as given. `setHours` would roll an hour of 24 or more, or a minute of 60 or more, into the following day or hour, so a stored time such as "25:00" is read as the next day's 01:00 in JavaScript. The round-trip lemmas for times require an hour below 24 and a minute below 60. An hour so large that the time leaves the range of `Date` (TimeClip) makes JavaScript's date invalid; the model keeps it valid.
- `JsBuiltins.ToNumber` models `Number(s)` on ASCII digit strings only (and "" as 0). Signs, decimals, exponents, hex and surrounding whitespace, which `Number` also accepts, all read as NaN here.
- `SignUp.Check`: a string is a sequence of Unicode characters here. JavaScript's `length` counts UTF-16 code units, so a password with characters outside the Basic Multilingual Plane is shorter here than in JavaScript.
- `ApiErrors.ErrorText`: the server's `detail` is taken to be a string or absent. A non-string `detail` (such as a validation error list) is not modelled.
- Asynchrony is modelled one handler at a time.
  - Each awaited call is a parameter saying how it ended.
  - `loading` is observed only before and after a handler, not during the await.
  - Interleavings such as a release that arrives before `startRecording` has finished, and stale closures, are not modelled.
- `VoiceRecording.Tick` models one firing of any running interval. The one-second period and real time are not modelled.
- The audio engine, the permission dialog, `console.error` and the recorded files are outside the model. Their answers are the parameters `granted`, `created`, `stopped` and the status reports.
- Navigation is returned as a value (`Stay`, `GoBack`, `ChartPreview`). The navigator and the session context (`AuthContext`, the token store) are outside the model.
- The API client (`getChart`, `createBirthProfile`, `register`, `login`) is outside the model, as are the other screens and the chat.
- `VedicChart.Abbreviation` treats the planet-code table as a plain map. A planet named like an `Object.prototype` member (e.g. "constructor") would find an inherited value in JavaScript.
