# InsightEd decision rules, modelled and proved in Dafny

InsightEd is an Android attendance app for students. They sign in with an email and a password. They confirm their identity with a face check against an embedding stored in a Firebase database. After that the app shows:

- the current class period;
- the day's attendance per period;
- an attendance report with a percentage;
- an academic calendar.

This project models the deterministic rules inside those screens and proves what they promise. One Dafny module stands for each source file:

| module | file | what it holds |
|---|---|---|
| `Timetable` | `timetable.dfy` | The fixed six-period timetable and `getCurrentPeriodNumber` (a half-open window search). It also holds the two holders of the signed-in user's id, `UserSession.uuid` and `UserViewModel.uuid`. |
| `SessionManager` | `session_manager.dfy` | The daily session file, a two-key string store: save, "logged in today?", read the uuid, clear. |
| `AppNavHost` | `nav_host.dfy` | Restoring the uuid at start-up and choosing the start screen. What login, face-verification success and logout do to the session. Three end-to-end scenarios over those operations. |
| `Login` | `login.dfy` | `checkLogin`: the first child whose password matches wins. Only then is the global uuid written. The screen's `loading` flag. |
| `Report` | `report.dfy` | The nested present/absent counting loops and the whole-number percentage. The `finally` that always clears `loading`. |
| `Attendance` | `attendance.dfy` | The period list: built from the timetable, then filled with subjects and statuses (each with its default), or marked "Error". How a subject and a status are displayed. |
| `Calendar` | `calendar.dfy` | The displayed month, clamped to August 2025–April 2026 and moved by Prev/Next. The 6×7 day grid with its ISO weekday offset, and the cell colour priority. The academic year's data and its per-month totals. |
| `FaceNet` | `facenet.dfy` | The input side of `getEmbedding`: a 160×160 bitmap is written row by row into a float buffer as (c − 128)/128 per colour byte. The embedding is the model's single 128-float row. |
| `FaceAuth` | `face_auth.dfy` | The per-frame gate (first face, box ≥ 400, eyes open ≥ 0.6) and the crop clamped to the bitmap. How often a frame is closed. The NV21 byte layout (Y, then V, then U). The first-time registration map. The verification latch (`isProcessing`, `faceHandled`, `continueEnabled`, `infoText`) around the remote lookup. |

`Wrappers` (Kotlin's nullable `T?` as `Option`) and `Decimal` (`Int.toString()` and its inverse) support these modules.

Inputs from outside the app's own code are parameters:

- the clock: time of day in whole seconds, the date string, the current month;
- the camera frame and the face detector's result;
- the TFLite model, as a function from the input tensor to its output row;
- Firebase reads and writes, as success/failure outcomes that carry the data read.

The Continue button of the face screen is enabled exactly when `continueEnabled` is set. The latch invariant `FaceAuth.Inv` proves that this happens only for a handled face whose lookup is over. The button then runs `AppNavHost.OnFaceAuthSuccess`.

Floats:

- The thresholds are the exact binary32 values of `0.6f` (5033165/2^23) and `1.3f` (5452595/2^22), compared as reals.
- The pixel normalisation divides a small integer by 128, which is exact in binary floating point. Reals therefore model it without rounding.

Where the specification and the code disagree, the model follows the code:

- The specification says each frame is released exactly once. The code closes a frame twice when its first face is rejected for size or eyes: once inline and once in the completion listener. `FaceAuth.CloseCount` states the count the code performs.
- The specification describes a guard against a zero norm in the embedding normalisation. `l2Normalize` at InsightEd-App/app/src/main/java/com/example/insighted/faceauth/FaceAuthActivity.kt:44-51 has none; it is left out below.

## Model

| member | source | states |
|---|---|---|
| Decimal.NatToString | InsightEd-App/app/src/main/java/com/example/insighted/faceauth/FaceAuthActivity.kt:361-362 | The numeral of n is one or more decimal digits, with a leading '0' exactly when n is 0 |
| Decimal.IntToString | InsightEd-App/app/src/main/java/com/example/insighted/ui/attendance/AttendanceScreen.kt:65 | `Int.toString()`: the plain numeral for n ≥ 0, and for n < 0 a '-' followed by the numeral of −n |
| Decimal.ParseNatToString | InsightEd-App/app/src/main/java/com/example/insighted/faceauth/FaceAuthActivity.kt:361-362 | Reading the numeral of n back as a number gives n (round trip) |
| Decimal.NatToStringInjective | InsightEd-App/app/src/main/java/com/example/insighted/faceauth/FaceAuthActivity.kt:360-363 | Two indices with the same decimal key are equal, so registration keys never collide |
| Decimal.IntToStringInjective | InsightEd-App/app/src/main/java/com/example/insighted/ui/attendance/AttendanceScreen.kt:65 | Two period numbers with the same numeral are equal |
| Timetable.ClockSeconds | app/src/main/java/com/example/insighted/viewmodels/UserViewModel.kt:32-33 | A parsed "HH:MM" boundary is a whole minute, in seconds since midnight |
| Timetable.FindPeriod | app/src/main/java/com/example/insighted/viewmodels/UserViewModel.kt:29-39 | Null exactly when no window [start, end) holds now. Otherwise the number of an entry whose window holds, with no earlier entry's window holding |
| Timetable.CurrentPeriodNumber | app/src/main/java/com/example/insighted/viewmodels/UserViewModel.kt:29-39 | A non-null current period is a number between 1 and 6 |
| Timetable.BoundaryValues | app/src/main/java/com/example/insighted/viewmodels/UserViewModel.kt:19-26 | All nine clock strings of the table parse, and their values in seconds |
| Timetable.TimetableShape | app/src/main/java/com/example/insighted/viewmodels/UserViewModel.kt:19-26 | Six entries numbered 1..6 in order. Each starts before it ends and ends no later than the next starts |
| Timetable.ChainedOrdered | app/src/main/java/com/example/insighted/viewmodels/UserViewModel.kt:19-26 | In such a table every earlier period ends no later than any later one starts |
| Timetable.AtMostOneHolds | app/src/main/java/com/example/insighted/viewmodels/UserViewModel.kt:19-26 | The windows are disjoint: two windows holding the same time are the same entry |
| Timetable.CurrentPeriodIsTheHoldingOne | app/src/main/java/com/example/insighted/viewmodels/UserViewModel.kt:31-36 | If period i+1's window holds now, the lookup returns i+1 |
| Timetable.SharedBoundaries | app/src/main/java/com/example/insighted/viewmodels/UserViewModel.kt:20-25 | At 10:15, 14:40 and 15:35 the later period is current (half-open windows) |
| Timetable.NoPeriodExactly | app/src/main/java/com/example/insighted/viewmodels/UserViewModel.kt:19-38 | The result is null iff now is before 09:15, in 11:15–11:45, in 12:45–13:45, or at/after 16:30 |
| Timetable.UserViewModel.constructor | app/src/main/java/com/example/insighted/viewmodels/UserViewModel.kt:10-12 | The view model's uuid starts null |
| Timetable.UserSession.constructor | app/src/main/java/com/example/insighted/viewmodels/UserViewModel.kt:13-15 | The session's uuid starts null |
| SessionManager.GetString | InsightEd-App/app/src/main/java/com/example/insighted/session/SessionManager.kt:26 | `getString(key, null)` is non-null exactly when the key is stored, and then it is the stored value |
| SessionManager.SaveThenRead | InsightEd-App/app/src/main/java/com/example/insighted/session/SessionManager.kt:15-33 | After saving (d, u): logged in on d, on no other day, and the saved uuid is u |
| SessionManager.SecondSaveOverwrites | InsightEd-App/app/src/main/java/com/example/insighted/session/SessionManager.kt:15-21 | A second save overwrites both keys: the result equals saving only the second |
| SessionManager.ClearedIsLoggedOut | InsightEd-App/app/src/main/java/com/example/insighted/session/SessionManager.kt:35-38 | An emptied store is logged in on no day and has no uuid |
| SessionManager.SessionStore.constructor | InsightEd-App/app/src/main/java/com/example/insighted/session/SessionManager.kt:8-12 | The store opens with what an earlier run persisted |
| SessionManager.SessionStore.SaveLoginToday | InsightEd-App/app/src/main/java/com/example/insighted/session/SessionManager.kt:15-21 | Both keys are overwritten and every other key is kept. Afterwards the store is logged in today with that uuid |
| SessionManager.SessionStore.IsLoggedInToday | InsightEd-App/app/src/main/java/com/example/insighted/session/SessionManager.kt:24-28 | True iff a date is stored and it equals today's |
| SessionManager.SessionStore.GetSavedUuid | InsightEd-App/app/src/main/java/com/example/insighted/session/SessionManager.kt:30-33 | Returns the stored uuid or null, and changes nothing |
| SessionManager.SessionStore.ClearSession | InsightEd-App/app/src/main/java/com/example/insighted/session/SessionManager.kt:35-38 | The store is empty: logged in on no day, no uuid |
| AppNavHost.RoutesDistinct | InsightEd-App/app/src/main/java/com/example/insighted/navigation/AppNavHost.kt:23-32 | The eight route strings are pairwise distinct |
| AppNavHost.StartDestination | InsightEd-App/app/src/main/java/com/example/insighted/navigation/AppNavHost.kt:51-55 | "dashboard" iff logged in today and `UserSession.uuid` is non-null; "welcome" otherwise |
| AppNavHost.Launch | InsightEd-App/app/src/main/java/com/example/insighted/navigation/AppNavHost.kt:43-55 | A saved uuid, whatever its date, is copied into both holders; with none saved, both keep their value. The start screen then follows the rule above |
| AppNavHost.OnLoginSuccess | InsightEd-App/app/src/main/java/com/example/insighted/navigation/AppNavHost.kt:72-79 | Both holders get the uuid, then navigation goes to "faceauth" |
| AppNavHost.OnFaceAuthSuccess | InsightEd-App/app/src/main/java/com/example/insighted/navigation/AppNavHost.kt:86-94 | With a session uuid: today's session is saved for it, then navigation goes to "dashboard". With none, `!!` throws and the store is untouched |
| AppNavHost.OnLogout | InsightEd-App/app/src/main/java/com/example/insighted/navigation/AppNavHost.kt:145-152 | The store is cleared and `UserSession.uuid` nulled. The view model's uuid is unchanged |
| AppNavHost.RelaunchSameDay | InsightEd-App/app/src/main/java/com/example/insighted/navigation/AppNavHost.kt:43-94 | Login, face verification and a relaunch on the same day land on the dashboard with the uuid restored |
| AppNavHost.RelaunchLaterDay | InsightEd-App/app/src/main/java/com/example/insighted/navigation/AppNavHost.kt:43-55 | A relaunch on another day restores the uuid but starts at the welcome screen |
| AppNavHost.RelaunchAfterLogout | InsightEd-App/app/src/main/java/com/example/insighted/navigation/AppNavHost.kt:145-152 | After logout, even on the same day, the next start is the welcome screen with no uuid |
| Login.FirstMatch | app/src/main/java/com/example/insighted/ui/login/LoginScreen.kt:174-182 | The index of a child whose password equals the typed one, with no earlier child matching. None iff no child matches |
| Login.NoPasswordNeverMatches | app/src/main/java/com/example/insighted/ui/login/LoginScreen.kt:175-176 | A child without a stored password is never the match |
| Login.CheckLogin | app/src/main/java/com/example/insighted/ui/login/LoginScreen.kt:162-189 | Cancelled or no match: onFailure, session uuid unchanged. On the first match the session uuid is set to that child's key, and onSuccess receives it (onFailure if the key is null) |
| Login.LoginForm.constructor | app/src/main/java/com/example/insighted/ui/login/LoginScreen.kt:44 | `loading` starts false |
| Login.LoginForm.OnLoginClick | app/src/main/java/com/example/insighted/ui/login/LoginScreen.kt:131-133 | A click sets `loading` |
| Login.LoginForm.OnQueryAnswered | app/src/main/java/com/example/insighted/ui/login/LoginScreen.kt:133-143 | Both callbacks clear `loading`. Success means the session holds the returned uuid. A failure without a match leaves the session unchanged |
| Report.PresentInDate | app/src/main/java/com/example/insighted/ui/report/ReportScreen.kt:57-62 | The present marks of a date number at most its periods |
| Report.PresentIsExact | app/src/main/java/com/example/insighted/ui/report/ReportScreen.kt:58-60 | A user without a status node counts as absent; only the exact string "present" counts as present ("Present" and "absent" count as absent) |
| Report.PresentCount | app/src/main/java/com/example/insighted/ui/report/ReportScreen.kt:56-63 | The present marks number at most the period nodes visited |
| Report.Tally | app/src/main/java/com/example/insighted/ui/report/ReportScreen.kt:53-63 | present counts the exact "present" statuses. present + absent equals the number of (date, period) nodes |
| Report.Percent | app/src/main/java/com/example/insighted/ui/report/ReportScreen.kt:67 | The percentage is ⌊100·present/total⌋ (as bounds), 0 with nothing counted, at most 100, and 100 iff absent = 0 and present > 0 |
| Report.PercentBounds | app/src/main/java/com/example/insighted/ui/report/ReportScreen.kt:67 | The division's floor bounds, ≤ 100, and = 100 iff nothing is absent |
| Report.ReportScreen.constructor | app/src/main/java/com/example/insighted/ui/report/ReportScreen.kt:41-44 | Counters and percent start 0, `loading` starts true |
| Report.ReportScreen.Refresh | app/src/main/java/com/example/insighted/ui/report/ReportScreen.kt:39-70 | With a null uuid the screen returns before the effect, and nothing changes. Otherwise `loading` is false afterwards on every path. A failed read keeps the counters. A successful one sets them from the tally and the percent from them |
| Attendance.InitialPeriods | InsightEd-App/app/src/main/java/com/example/insighted/ui/attendance/AttendanceScreen.kt:45-56 | One entry per timetable period, in order, with its number, subject "", timing "start - end" and status "Loading..." |
| Attendance.Timing | InsightEd-App/app/src/main/java/com/example/insighted/ui/attendance/AttendanceScreen.kt:51 | The label is the start, " - " and the end, each at its own position so that it can be split back |
| Attendance.TimingSplits | InsightEd-App/app/src/main/java/com/example/insighted/ui/attendance/AttendanceScreen.kt:51 | The timing label splits back into its start and end |
| Attendance.WithSubjects | InsightEd-App/app/src/main/java/com/example/insighted/ui/attendance/AttendanceScreen.kt:63-67 | The subject becomes the value at periods/period{n}, or "" if missing. Number, timing and status are unchanged |
| Attendance.WithStatuses | InsightEd-App/app/src/main/java/com/example/insighted/ui/attendance/AttendanceScreen.kt:69-79 | The status becomes the value at attendance/{today}/period{n}/{uid}/status, or "Pending". The other fields are unchanged |
| Attendance.WithError | InsightEd-App/app/src/main/java/com/example/insighted/ui/attendance/AttendanceScreen.kt:81-83 | Every status becomes "Error". The other fields are unchanged |
| Attendance.PathsDistinct | InsightEd-App/app/src/main/java/com/example/insighted/ui/attendance/AttendanceScreen.kt:63-79 | Different period numbers read different subject paths and different status paths |
| Attendance.AttendanceScreen.constructor | InsightEd-App/app/src/main/java/com/example/insighted/ui/attendance/AttendanceScreen.kt:45-56 | The list starts as the initial periods |
| Attendance.AttendanceScreen.Load | InsightEd-App/app/src/main/java/com/example/insighted/ui/attendance/AttendanceScreen.kt:40-84 | With a null uuid the screen returns before the effect, and the list is unchanged. Otherwise the list is replaced by the filled-in list, or on failure by the old list with every status "Error" |
| Attendance.LoadedFromTimetable | InsightEd-App/app/src/main/java/com/example/insighted/ui/attendance/AttendanceScreen.kt:45-80 | After one load, entry i is period i+1 with its timetable timing, and subject and status read from "period{i+1}" paths |
| Attendance.DisplaySubject | InsightEd-App/app/src/main/java/com/example/insighted/ui/attendance/AttendanceScreen.kt:128 | A blank subject shows as "No subject assigned", any other unchanged. What is shown is never blank |
| Attendance.Lowercase | InsightEd-App/app/src/main/java/com/example/insighted/ui/attendance/AttendanceScreen.kt:132 | Same length, each character folded |
| Attendance.ColorIgnoresCase | InsightEd-App/app/src/main/java/com/example/insighted/ui/attendance/AttendanceScreen.kt:132-138 | Statuses equal up to case get the same colour |
| Attendance.StatusColorOf | InsightEd-App/app/src/main/java/com/example/insighted/ui/attendance/AttendanceScreen.kt:132-138 | After lowercasing: green iff "present" or "enrolled", red iff "absent", yellow iff "pending", grey iff "error", white otherwise |
| Attendance.LowercaseIdempotent | InsightEd-App/app/src/main/java/com/example/insighted/ui/attendance/AttendanceScreen.kt:132 | Folding twice is folding once |
| Attendance.StatusColors | InsightEd-App/app/src/main/java/com/example/insighted/ui/attendance/AttendanceScreen.kt:132-138 | "Pending" is yellow, "Error" grey, "Loading..." white, "Present"/"ENROLLED" green, "Absent" red, "presents" white |
| Attendance.FailedLoadIsGray | InsightEd-App/app/src/main/java/com/example/insighted/ui/attendance/AttendanceScreen.kt:81-83 | After a failed load every period is drawn grey |
| Attendance.MissingStatusIsYellow | InsightEd-App/app/src/main/java/com/example/insighted/ui/attendance/AttendanceScreen.kt:69-80 | A period with no stored status is drawn yellow |
| Calendar.FromMonthIndex | InsightEd-App/app/src/main/java/com/example/insighted/ui/calendar/CalendarScreen.kt:131 | Inverse of counting months since year 0 |
| Calendar.MonthIndexOrder | InsightEd-App/app/src/main/java/com/example/insighted/ui/calendar/CalendarScreen.kt:131-138 | `YearMonth` order and equality are those of the month count |
| Calendar.PlusMonths | InsightEd-App/app/src/main/java/com/example/insighted/ui/calendar/CalendarScreen.kt:131-137 | `plusMonths(n)` moves the month count by exactly n |
| Calendar.PlusMonthsRoundTrip | InsightEd-App/app/src/main/java/com/example/insighted/ui/calendar/CalendarScreen.kt:131-137 | Moving n months and back returns the same month |
| Calendar.ClampedStart | InsightEd-App/app/src/main/java/com/example/insighted/ui/calendar/CalendarScreen.kt:34-37 | The opening month is in range, equals now iff now is in range, and is min/max when now is before/after |
| Calendar.CoerceIn | InsightEd-App/app/src/main/java/com/example/insighted/ui/calendar/CalendarScreen.kt:37 | `coerceIn(min, max)`: the result lies in [min, max], is the value itself when it already does, the minimum below it and the maximum above it |
| Calendar.RangeMonths | InsightEd-App/app/src/main/java/com/example/insighted/ui/calendar/CalendarScreen.kt:34-35 | The range is exactly the nine month counts from 2025-08 to 2026-04 |
| Calendar.CalendarScreen.constructor | InsightEd-App/app/src/main/java/com/example/insighted/ui/calendar/CalendarScreen.kt:37 | The month on screen starts as now clamped, hence in range |
| Calendar.CalendarScreen.Prev | InsightEd-App/app/src/main/java/com/example/insighted/ui/calendar/CalendarScreen.kt:130-135 | One month back only when after the minimum, otherwise no change. The month stays in range |
| Calendar.CalendarScreen.Next | InsightEd-App/app/src/main/java/com/example/insighted/ui/calendar/CalendarScreen.kt:136-141 | One month forward only when before the maximum, otherwise no change. The month stays in range |
| Calendar.LengthOfMonth | InsightEd-App/app/src/main/java/com/example/insighted/ui/calendar/CalendarScreen.kt:160 | A month has 28 to 31 days |
| Calendar.FirstIsoDayOfWeek | InsightEd-App/app/src/main/java/com/example/insighted/ui/calendar/CalendarScreen.kt:158-159 | The ISO weekday of the 1st is between 1 and 7 |
| Calendar.DayOfWeekOffset | InsightEd-App/app/src/main/java/com/example/insighted/ui/calendar/CalendarScreen.kt:159 | The grid offset is below 7, and 0 exactly when the 1st is a Sunday |
| Calendar.YearLength | InsightEd-App/app/src/main/java/com/example/insighted/ui/calendar/CalendarScreen.kt:158-160 | A year has 366 days when leap, else 365 |
| Calendar.LeapCount | InsightEd-App/app/src/main/java/com/example/insighted/ui/calendar/CalendarScreen.kt:160 | A year is leap exactly when it passes one more multiple of 4, minus one of 100, plus one of 400: the Gregorian leap rule agrees with the day count |
| Calendar.MonthLength | InsightEd-App/app/src/main/java/com/example/insighted/ui/calendar/CalendarScreen.kt:160 | The days before the next month are the days before this one plus its length |
| Calendar.NextMonthStarts | InsightEd-App/app/src/main/java/com/example/insighted/ui/calendar/CalendarScreen.kt:158-160 | The next month starts `lengthOfMonth` days later, and its offset moves by that length mod 7 |
| Calendar.RangeOffsets | InsightEd-App/app/src/main/java/com/example/insighted/ui/calendar/CalendarScreen.kt:158-159 | The grid offsets of the nine months of the range (August 2025 starts on a Friday) |
| Calendar.EveryDayInOneCell | InsightEd-App/app/src/main/java/com/example/insighted/ui/calendar/CalendarScreen.kt:163-166 | Every day of the month is in one of the 6×7 cells, and in no other |
| Calendar.DayNumber | InsightEd-App/app/src/main/java/com/example/insighted/ui/calendar/CalendarScreen.kt:166 | Cell (week, day) of the 6×7 grid, at row-major index week·7 + day, shows day number index − offset + 1 |
| Calendar.Priority | InsightEd-App/app/src/main/java/com/example/insighted/ui/calendar/CalendarScreen.kt:167-172 | A shown day takes working > holiday > exam/event, the first set containing it |
| Calendar.CellBackground | InsightEd-App/app/src/main/java/com/example/insighted/ui/calendar/CalendarScreen.kt:167-179 | Only a shown day is coloured. Working iff the day is in the working set; holiday iff not working and a holiday; exam/event iff in neither and an exam/event |
| Calendar.DaysOf | InsightEd-App/app/src/main/java/com/example/insighted/ui/calendar/CalendarScreen.kt:78-80 | A month missing from a map gives the empty set, otherwise its entry |
| Calendar.MapsCoverRange | InsightEd-App/app/src/main/java/com/example/insighted/ui/calendar/CalendarScreen.kt:40-80 | Every month of the range has an entry in all three maps |
| Calendar.DataConsistent | InsightEd-App/app/src/main/java/com/example/insighted/ui/calendar/CalendarScreen.kt:40-76 | In every month of the range the three sets are pairwise disjoint and hold only days of the month |
| Calendar.ColorIsMembership | InsightEd-App/app/src/main/java/com/example/insighted/ui/calendar/CalendarScreen.kt:167-179 | In the range a cell has a set's colour iff its day is in that set |
| Calendar.TotalsAugust2025 | InsightEd-App/app/src/main/java/com/example/insighted/ui/calendar/CalendarScreen.kt:207-225 | The totals shown for August 2025 are 9 working days, 3 holidays, 0 exams/events |
| Calendar.ConsistentFits | InsightEd-App/app/src/main/java/com/example/insighted/ui/calendar/CalendarScreen.kt:207-225 | Three pairwise disjoint sets of days of an n-day month have sizes summing to at most n |
| Calendar.TotalsFitMonth | InsightEd-App/app/src/main/java/com/example/insighted/ui/calendar/CalendarScreen.kt:207-225 | For every month of the range the three printed totals together are at most the month's length |
| Calendar.ConsistentCells | InsightEd-App/app/src/main/java/com/example/insighted/ui/calendar/CalendarScreen.kt:167-179 | With consistent sets, the days drawn in each colour are exactly that set |
| Calendar.TotalsCountCells | InsightEd-App/app/src/main/java/com/example/insighted/ui/calendar/CalendarScreen.kt:167-225 | For every month of the range each printed total equals the number of grid cells drawn in that colour |
| Calendar.DaysUpToCard | InsightEd-App/app/src/main/java/com/example/insighted/ui/calendar/CalendarScreen.kt:160-166 | The days 1..n of a month are n days |
| FaceNet.Red | InsightEd-App/app/src/main/java/com/example/insighted/faceauth/FaceNetModel.kt:32 | Bits 16–23 of the pixel, a byte |
| FaceNet.Green | InsightEd-App/app/src/main/java/com/example/insighted/faceauth/FaceNetModel.kt:33 | Bits 8–15 of the pixel, a byte |
| FaceNet.Blue | InsightEd-App/app/src/main/java/com/example/insighted/faceauth/FaceNetModel.kt:34 | Bits 0–7 of the pixel, a byte |
| FaceNet.Normalize | InsightEd-App/app/src/main/java/com/example/insighted/faceauth/FaceNetModel.kt:32-34 | (c − 128)/128 lies in [−1, 127/128], is 0 iff c = 128 and negative iff c < 128 |
| FaceNet.NormalizeRoundTrip | InsightEd-App/app/src/main/java/com/example/insighted/faceauth/FaceNetModel.kt:32-34 | v·128 + 128 recovers the byte |
| FaceNet.NormalizeInjective | InsightEd-App/app/src/main/java/com/example/insighted/faceauth/FaceNetModel.kt:32-34 | Distinct bytes give distinct values |
| FaceNet.PixelFloats | InsightEd-App/app/src/main/java/com/example/insighted/faceauth/FaceNetModel.kt:32-34 | A pixel contributes three values: red, green, blue, normalized |
| FaceNet.RowFloats | InsightEd-App/app/src/main/java/com/example/insighted/faceauth/FaceNetModel.kt:29-35 | A row contributes three values per pixel |
| FaceNet.InputTensor | InsightEd-App/app/src/main/java/com/example/insighted/faceauth/FaceNetModel.kt:28-36 | The tensor of a 160×160 bitmap has 160·160·3 values |
| FaceNet.RowsFullLength | InsightEd-App/app/src/main/java/com/example/insighted/faceauth/FaceNetModel.kt:28-36 | Rows of equal width give 3·width values per row |
| FaceNet.RowFloatsIndex | InsightEd-App/app/src/main/java/com/example/insighted/faceauth/FaceNetModel.kt:29-35 | Pixel x of a row fills slots 3x, 3x+1, 3x+2 with its channels |
| FaceNet.RowsFloatsIndex | InsightEd-App/app/src/main/java/com/example/insighted/faceauth/FaceNetModel.kt:28-36 | Pixel (x, y) fills slot (y·160 + x)·3 + c with channel c |
| FaceNet.SlotLayout | InsightEd-App/app/src/main/java/com/example/insighted/faceauth/FaceNetModel.kt:28-35 | Row-major order with y outer: pixel (x, y) owns slots (y·160+x)·3 … +2, in R, G, B order |
| FaceNet.AlphaIgnored | InsightEd-App/app/src/main/java/com/example/insighted/faceauth/FaceNetModel.kt:32-34 | Bitmaps that differ only in alpha bytes give the same tensor |
| FaceNet.SameLowBytes | InsightEd-App/app/src/main/java/com/example/insighted/faceauth/FaceNetModel.kt:32-34 | Pixels equal on their low 24 bits give the same three values |
| FaceNet.InputBuffer.constructor | InsightEd-App/app/src/main/java/com/example/insighted/faceauth/FaceNetModel.kt:25-26 | A fresh zero-filled buffer of the given byte capacity at position 0 |
| FaceNet.InputBuffer.Written | InsightEd-App/app/src/main/java/com/example/insighted/faceauth/FaceNetModel.kt:25-26 | The floats written so far take exactly `position` bytes |
| FaceNet.InputBuffer.PutFloat | InsightEd-App/app/src/main/java/com/example/insighted/faceauth/FaceNetModel.kt:32-34 | Stores the value at the position and appends it to what was written. The position advances by 4 |
| FaceNet.PutPixel | InsightEd-App/app/src/main/java/com/example/insighted/faceauth/FaceNetModel.kt:30-34 | One pixel's three writes append its red, green and blue values |
| FaceNet.PutRow | InsightEd-App/app/src/main/java/com/example/insighted/faceauth/FaceNetModel.kt:29-35 | The inner loop appends the row's values, x ascending |
| FaceNet.FillInput | InsightEd-App/app/src/main/java/com/example/insighted/faceauth/FaceNetModel.kt:25-36 | A 307200-byte buffer is filled exactly to its end (307200 bytes), and holds the whole tensor in order |
| FaceNet.GetEmbedding | InsightEd-App/app/src/main/java/com/example/insighted/faceauth/FaceNetModel.kt:22-42 | The embedding is the model's output row for the bitmap's tensor, 128 values long |
| FaceAuth.Gate | InsightEd-App/app/src/main/java/com/example/insighted/faceauth/FaceAuthActivity.kt:119-138 | No face iff the list is empty. Accepted iff the first face's box is ≥ 400×400 and both eye probabilities are present and ≥ 0.6; the accepted face is the first |
| FaceAuth.OnlyFirstFaceMatters | InsightEd-App/app/src/main/java/com/example/insighted/faceauth/FaceAuthActivity.kt:119-121 | The faces after the first never change the verdict |
| FaceAuth.EyesDecide | InsightEd-App/app/src/main/java/com/example/insighted/faceauth/FaceAuthActivity.kt:131-138 | For a large enough box, a missing or sub-0.6 eye rejects and open eyes accept |
| FaceAuth.CoerceAtLeast | InsightEd-App/app/src/main/java/com/example/insighted/faceauth/FaceAuthActivity.kt:145-146 | `coerceAtLeast`: the value itself when it is at least the bound, the bound otherwise |
| FaceAuth.CoerceAtMost | InsightEd-App/app/src/main/java/com/example/insighted/faceauth/FaceAuthActivity.kt:147-148 | `coerceAtMost`: the value itself when it is at most the bound, the bound otherwise |
| FaceAuth.CropRect | InsightEd-App/app/src/main/java/com/example/insighted/faceauth/FaceAuthActivity.kt:143-161 | A crop exists iff both clamped extents are positive. It lies inside the bitmap and inside the box |
| FaceAuth.CropInsideIsIdentity | InsightEd-App/app/src/main/java/com/example/insighted/faceauth/FaceAuthActivity.kt:143-158 | A box inside the bitmap is cropped unchanged |
| FaceAuth.AcceptedCropCanBeSmall | InsightEd-App/app/src/main/java/com/example/insighted/faceauth/FaceAuthActivity.kt:124-158 | A face that passes the 400-pixel test can give a crop 300 pixels wide, because the test looks at the unclamped box |
| FaceAuth.ImageProxy.constructor | InsightEd-App/app/src/main/java/com/example/insighted/faceauth/FaceAuthActivity.kt:99-105 | A frame not yet closed |
| FaceAuth.ImageProxy.Close | InsightEd-App/app/src/main/java/com/example/insighted/faceauth/FaceAuthActivity.kt:107 | Each close is counted |
| FaceAuth.CloseCount | InsightEd-App/app/src/main/java/com/example/insighted/faceauth/FaceAuthActivity.kt:105-169 | Every path closes the frame: once, or twice exactly when the first face is rejected for size or eyes |
| FaceAuth.Captured | InsightEd-App/app/src/main/java/com/example/insighted/faceauth/FaceAuthActivity.kt:119-161 | A crop is passed on only for an accepted first face. It is the clamped box and lies inside the frame |
| FaceAuth.ProcessImageProxy | InsightEd-App/app/src/main/java/com/example/insighted/faceauth/FaceAuthActivity.kt:99-170 | The frame is closed as above, and the captured crop is as above |
| FaceAuth.CopyInto | InsightEd-App/app/src/main/java/com/example/insighted/faceauth/FaceAuthActivity.kt:184-186 | The plane's bytes replace the array's slice at the offset. The rest is unchanged |
| FaceAuth.Nv21 | InsightEd-App/app/src/main/java/com/example/insighted/faceauth/FaceAuthActivity.kt:178-186 | The array is Y ++ V ++ U |
| FaceAuth.Nv21Offsets | InsightEd-App/app/src/main/java/com/example/insighted/faceauth/FaceAuthActivity.kt:182-186 | Its length is ySize+uSize+vSize. Y sits at 0, V at ySize, U at ySize+vSize |
| FaceAuth.RegistrationKeys | InsightEd-App/app/src/main/java/com/example/insighted/faceauth/FaceAuthActivity.kt:360-363 | The registration map's keys are exactly the decimal indices of the embedding |
| FaceAuth.RegistrationMap | InsightEd-App/app/src/main/java/com/example/insighted/faceauth/FaceAuthActivity.kt:360-363 | Every key of the registration map is a decimal numeral, and the map has at most one entry per component (exactly one, by `RegistrationSize`) |
| FaceAuth.RegistrationEntries | InsightEd-App/app/src/main/java/com/example/insighted/faceauth/FaceAuthActivity.kt:360-363 | Entry "i" holds component i |
| FaceAuth.RegistrationSize | InsightEd-App/app/src/main/java/com/example/insighted/faceauth/FaceAuthActivity.kt:360-363 | The map has one entry per component: nothing is overwritten |
| FaceAuth.InitialInv | InsightEd-App/app/src/main/java/com/example/insighted/faceauth/FaceAuthActivity.kt:219-224 | The opening state satisfies the latch invariant with Continue disabled |
| FaceAuth.OnPermission | InsightEd-App/app/src/main/java/com/example/insighted/faceauth/FaceAuthActivity.kt:233-236 | The permission flag takes the result. A refusal shows "Camera permission denied". Nothing else changes |
| FaceAuth.OnCapture | InsightEd-App/app/src/main/java/com/example/insighted/faceauth/FaceAuthActivity.kt:301-316 | Keeps the latch invariant. While processing or handled, a capture changes nothing. Otherwise a lookup starts ("Verifying...") iff there is a session uuid. Without one: "Session error", latch freed. Continue is never touched |
| FaceAuth.OnReply | InsightEd-App/app/src/main/java/com/example/insighted/faceauth/FaceAuthActivity.kt:326-378 | Keeps the invariant and ends processing. Continue ends enabled iff nothing was stored or the distance is < 1.3. The face stays handled iff Continue is enabled. Each reply shows its own text: a read failure "Database error", no stored embedding "Face Registered", a close match "Verified", a distant one "Face does not match" |
| FaceAuth.RegistrationWrite | InsightEd-App/app/src/main/java/com/example/insighted/faceauth/FaceAuthActivity.kt:357-367 | A write happens iff nothing was stored. It goes under the session uuid, and writes the registration map of the captured embedding (keys "0".."n−1", entry i = component i, by the lemmas below), one entry per component |
| FaceAuth.RetryAfterFailure | InsightEd-App/app/src/main/java/com/example/insighted/faceauth/FaceAuthActivity.kt:351-378 | After a store failure or a mismatch, the next captured face starts a new lookup |
| FaceAuth.Captures | InsightEd-App/app/src/main/java/com/example/insighted/faceauth/FaceAuthActivity.kt:301-305 | Any sequence of captures keeps the latch invariant |
| FaceAuth.SuccessIsFinal | InsightEd-App/app/src/main/java/com/example/insighted/faceauth/FaceAuthActivity.kt:301-372 | Once Continue is enabled, no later frame changes anything |
| FaceAuth.SuccessTexts | InsightEd-App/app/src/main/java/com/example/insighted/faceauth/FaceAuthActivity.kt:347-378 | An enabling reply shows "Verified" or "Face Registered". Any other reply shows "Database error" or "Face does not match" |
| FaceAuth.FaceAuthScreen.constructor | InsightEd-App/app/src/main/java/com/example/insighted/faceauth/FaceAuthActivity.kt:219-224 | The screen opens in the initial state: "Waiting for face...", all flags false |
| FaceAuth.FaceAuthScreen.OnStart | InsightEd-App/app/src/main/java/com/example/insighted/faceauth/FaceAuthActivity.kt:238-248 | An already granted permission is recorded. Nothing else changes |
| FaceAuth.FaceAuthScreen.OnPermissionResult | InsightEd-App/app/src/main/java/com/example/insighted/faceauth/FaceAuthActivity.kt:233-236 | The screen moves as `OnPermission` says |
| FaceAuth.FaceAuthScreen.OnFaceCaptured | InsightEd-App/app/src/main/java/com/example/insighted/faceauth/FaceAuthActivity.kt:301-316 | The screen moves as `OnCapture` says. `started` is true exactly when a lookup began |
| FaceAuth.FaceAuthScreen.OnStoreReply | InsightEd-App/app/src/main/java/com/example/insighted/faceauth/FaceAuthActivity.kt:326-378 | The screen moves as `OnReply` says, and the registration write is `RegistrationWrite`'s |

## Left out

- `l2Normalize` (InsightEd-App/app/src/main/java/com/example/insighted/faceauth/FaceAuthActivity.kt:44-51) is not modelled; the embedding handed to the latch is an input. Float square roots and sums are out of scope. Two observations from its text: it divides by the norm unguarded, so an all-zero embedding gives NaN components. The stored list is built with `mapNotNull`, so it can be shorter than 128.
- `calculateDistance` (InsightEd-App/app/src/main/java/com/example/insighted/faceauth/FaceUtils.kt:8-15) is not modelled, for the same reason; the distance is a real input to the latch. It indexes the stored embedding over the captured embedding's indices, so a shorter stored list would throw.
- The camera set-up, the ML Kit face detector, the TFLite interpreter and its asset loading are left out. So are `Bitmap.createScaledBitmap`, `Bitmap.createBitmap` and the JPEG compress/decode of `toBitmap`. All are library calls. The detector's result, the resized bitmap and the model are inputs. The crop is modelled as its rectangle, not its pixels.
- FaceNet.InputBuffer.PutFloat: requires four bytes of room where `ByteBuffer.putFloat` would throw `BufferOverflowException`. `FillInput` never lacks room. The byte encoding of each float in native order is not modelled.
- FaceAuth.ImageProxy.Close: counts calls. Whether a second `close()` on an already closed frame is harmless is a library matter and is not modelled.
- Firebase reads and writes are not modelled as calls; each is an outcome (success with the data read, or failure). Listener ordering, `await` and coroutine cancellation are concurrency plumbing and are left out.
- Login.CheckLogin: the email filter (`orderByChild("email").equalTo(email)`) runs in the database. The children it returns are an input.
- Attendance.AttendanceScreen.Load: the subject read and the per-period status reads are separate remote calls. The model treats them as one outcome: all succeed, or one throws and the `catch` runs. A stored value that is not a string, which `getValue(String::class.java)` rejects, is not representable.
- Report.Percent: Kotlin's `Int` arithmetic wraps at 2^31. `presentCount * 100` overflows beyond 21,474,836 present marks; the model uses unbounded integers.
- Report.ReportScreen.Refresh: a failed read (including a non-string status) is one outcome that keeps the counters; the exception that escapes the `try`/`finally` is not modelled further.
- With a null `userViewModel.uuid` the report and attendance screens return before creating any state, so nothing is shown. `Report.ReportScreen.Refresh` and `Attendance.AttendanceScreen.Load` model this as "no change to the screen's state"; that nothing is drawn is a rendering matter and is not modelled.
- Attendance.Lowercase: folds only the ASCII letters A–Z. Kotlin's `lowercase()` also folds other Unicode letters.
- Timetable.ClockSeconds: accepts only the "HH:MM" form the timetable uses. `LocalTime.parse` also accepts seconds and fractions.
- The clock (`LocalTime.now`, `LocalDate.now`, `YearMonth.now`) and the `dd_MM_yyyy` date format are not modelled. Time, dates and the current month are parameters.
- The Bluetooth advertising services (InsightEd-App/app/src/main/java/com/example/insighted/ble/BleAdvertiseService.kt, app/src/main/java/com/example/insighted/ble/BleAdvertiser.kt) are left out. They consist of SDK calls. In passing: one advertises the name-based MD5 UUID of section 4.3 of RFC 4122 derived from the user id (BleAdvertiseService.kt:71). The other parses the id itself with `UUID.fromString` (BleAdvertiser.kt:51-56). So the two advertise different identifiers for the same user.
- The dashboard, profile and welcome screens and `MainActivity` are left out. They hold layout and remote reads with null defaults; the one decision they use, the current period, is modelled in `Timetable`.
- Compose rendering and colours are left out, as are the duplicated bottom-bar composables and the navigation back stack (`popUpTo`). Only the route each callback navigates to is modelled.
