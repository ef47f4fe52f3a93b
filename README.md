# PiHoleStats view model, in Dafny

This project models `PiHoleViewModel`, the object behind the PiHoleStats
menu-bar popover. It holds the display state for one Pi-hole:

- four formatted figures: total queries, queries blocked, percent blocked, domains on the blocklist;
- an error message;
- the `active` flag, whose observer keeps the status label and the toggle button's title in step;
- the polling timer.

Its entry points are start and stop polling, resetting the message, enabling and
disabling blocking, and the fetch with its two completions (`updateData`, `handleError`).

The model is a Dafny class `ViewModel.PiHoleViewModel` with the same fields.
Every network call goes through the SwiftHole client. Here each entry point
returns the `SwiftHole.Request` it issues (`None` when it issues none) and
takes the client's answer as a `Result` argument. The completion, which the
original hops onto the main queue, then runs synchronously at the end of the
call. The two number formatters are constructor parameters of type
`int -> Option<string>` and `real -> Option<string>`, so the model says nothing
about their output beyond what the view model does with it. The connection
settings are a small `Settings` object the view model reads at every call, as
the original reads `settings.host` and `settings.apiToken`.

Modules:

- `Wrappers`: `Option` (Swift's optional, with `??` as `GetOr`) and `Result`.
- `SwiftHole`: the errors, the summary fields and the requests of the client library.
- `Text`: Swift's decimal interpolation of an `Int`, with its inverse, and `lowercased()` on ASCII letters.
- `ViewModel`: the labels and messages, the class, and three client scenarios.

Points where the code behaves differently from what a reader of the
application might expect, and which the model keeps as written:

- `updateData` does not clear `errorMessage`: a success after a failure still
  shows the failure's message (`SuccessKeepsEarlierError`).
- `startPolling` is not idempotent. It schedules a new timer without
  invalidating the previous one, and `stopPolling` invalidates only the latest.
  Two starts and one stop therefore leave a timer running (`RestartLeavesTimerRunning`).
- There is one host, no sequence numbers and no staleness guard.
- An empty host is caught only by `fetchSummaryData`. Enable and disable
  requests are issued whatever the host is.

## Model

| member | source | states |
|---|---|---|
| ViewModel.PiHoleViewModel.constructor | PiHoleStats/ViewModel/PiHoleViewModel.swift:15-49 | every string starts empty and `active` false; the labels stay empty because the observer does not run for the initial value; no timer is scheduled |
| ViewModel.PiHoleViewModel.SetActive | PiHoleStats/ViewModel/PiHoleViewModel.swift:20-25 | assigning `active` sets the status to Enabled/Disabled and the button to Disable/Enable from the new value; keeps the invariant that the labels are either both unset or both in step with `active` |
| ViewModel.PiHoleViewModel.StartPolling | PiHoleStats/ViewModel/PiHoleViewModel.swift:51-56 | performs the full effect of one fetch at once, then adds a new repeating timer to the running ones without invalidating any earlier timer |
| ViewModel.PiHoleViewModel.TimerFired | PiHoleStats/ViewModel/PiHoleViewModel.swift:53-55 | a tick of a running timer has exactly the effect of one fetch and leaves the timers as they are |
| ViewModel.PiHoleViewModel.StopPolling | PiHoleStats/ViewModel/PiHoleViewModel.swift:58-60 | invalidates only the last scheduled timer, if any; display state unchanged |
| ViewModel.PiHoleViewModel.ResetErrorMessage | PiHoleStats/ViewModel/PiHoleViewModel.swift:62-64 | the message becomes empty; figures, `active`, labels and timers unchanged |
| ViewModel.PiHoleViewModel.DisablePiHole | PiHoleStats/ViewModel/PiHoleViewModel.swift:66-80 | issues a disable request with the current host and token; success sets `active` false with both labels and keeps the message; failure changes only the message, to the error's message |
| ViewModel.PiHoleViewModel.EnablePiHole | PiHoleStats/ViewModel/PiHoleViewModel.swift:82-96 | issues an enable request with the current host and token; success sets `active` true with both labels and keeps the message; failure changes only the message, to the error's message |
| ViewModel.PiHoleViewModel.HandleError | PiHoleStats/ViewModel/PiHoleViewModel.swift:98-113 | the message per error kind: "Invalid URL", "Can't decode response: " + description, "No API Token Provided", "Session error: " + description, "Session error: " + decimal code, "Invalid Response"; the figures, `active`, labels and timers are untouched |
| ViewModel.PiHoleViewModel.FetchSummaryData | PiHoleStats/ViewModel/PiHoleViewModel.swift:115-134 | with an empty host: issues no request, sets the settings hint and changes nothing else; otherwise issues one summary request with the current host and token and applies the answer as `UpdateData` or `HandleError` |
| ViewModel.PiHoleViewModel.UpdateData | PiHoleStats/ViewModel/PiHoleViewModel.swift:136-142 | replaces all four figures with the formatter's output or "-" when it yields nothing (the percentage formatted from value / 100); sets `active` and both labels from whether the status lower-cased is "enabled"; keeps the error message |
| ViewModel.EnabledStatusIgnoresCase | PiHoleStats/ViewModel/PiHoleViewModel.swift:141 | a status counts as enabled if and only if it is "enabled" with any of its letters capitalised |
| ViewModel.ErrorMessagesEqualIff | PiHoleStats/ViewModel/PiHoleViewModel.swift:98-113 | two errors show the same message if and only if they are equal, or one is a session error whose description is the decimal text of the other's response code |
| ViewModel.ErrorMessageIsDistinctive | PiHoleStats/ViewModel/PiHoleViewModel.swift:98-119 | no error message is empty or equal to the missing-host hint |
| ViewModel.RestartLeavesTimerRunning | PiHoleStats/ViewModel/PiHoleViewModel.swift:51-60 | start, start, stop leaves exactly one timer running, and it is not the one the view model still refers to |
| ViewModel.SuccessKeepsEarlierError | PiHoleStats/ViewModel/PiHoleViewModel.swift:115-142 | a failed fetch followed by a successful one leaves the failure's message shown, with `active` taken from the new summary |
| ViewModel.FailedEnableKeepsStatus | PiHoleStats/ViewModel/PiHoleViewModel.swift:82-96 | after a fetch reporting "disabled", a failed enable keeps the status Disabled and the button Enable, and shows the error's message |
| Text.NatToDecimal | PiHoleStats/ViewModel/PiHoleViewModel.swift:109 | the decimal text of a natural number is non-empty, all digits, without a leading zero |
| Text.IntToDecimal | PiHoleStats/ViewModel/PiHoleViewModel.swift:109 | the interpolated text of an `Int` starts with '-' if and only if it is negative, and is digits otherwise |
| Text.NatToDecimalRoundTrip | PiHoleStats/ViewModel/PiHoleViewModel.swift:109 | reading back the decimal text of a natural number gives the number |
| Text.IntToDecimalRoundTrip | PiHoleStats/ViewModel/PiHoleViewModel.swift:109 | reading back the interpolated text of an `Int` gives the `Int` |
| Text.IntToDecimalInjective | PiHoleStats/ViewModel/PiHoleViewModel.swift:109 | two status codes render the same text if and only if they are equal |
| Text.Lowercased | PiHoleStats/ViewModel/PiHoleViewModel.swift:141 | lower-casing keeps the length and maps every character through the ASCII lower-case mapping |
| Text.LowercasedEqualsIff | PiHoleStats/ViewModel/PiHoleViewModel.swift:141 | for a lower-case word, a string lower-cases to it if and only if it spells the word with any letters capitalised |

## Left out

- The SwiftHole network calls themselves: the model records the request and takes the answer as an argument.
- The main-queue hops: each completion runs synchronously inside the call that issued its request, so no two answers interleave and no answer arrives late.
- `NumberFormatter`: locale grouping and percent rendering are the uninterpreted constructor parameters. The Swift `Double` division by 100 is exact real division here, so floating-point rounding is not modelled.
- `Timer.scheduledTimer`: a timer is an identity in a set of running timers. The 3-second interval and the run loop's firing times are not modelled; a tick is a call of `TimerFired`.
- Combine's `@Published` change notifications: a framework mechanism with no logic.
- `Text.Lowercased`: covers the ASCII letters only. Swift's `lowercased()` maps all of Unicode; for the word "enabled" only ASCII capitals lower-case to its letters.
- The user-interface label strings: UIConstants is not part of this model. The model gives them the values "Enabled", "Disabled", "Enable" and "Disable", and its proofs use only that the two status labels differ and that the two button titles differ.
- `localizedDescription` of the decoding and session errors: these are plain strings in the error values.
- The `Settings` object: its declaration is not part of this model. The model gives it a mutable host and API token.
- The application delegate, menu, navigation and summary view controllers: these are status-bar, popover and window plumbing. The summary view controller only starts and stops polling when it appears and disappears.
