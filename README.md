# Forecast upload flow

This project models the core of the featurebox front end. A user picks one
CSV file in a dialog and uploads it to the forecasting service with the
forecast type held in the store, which a page outside the modelled files sets. When the upload succeeds, the parsed
forecast is written into a session store that every page reads.

Two modules:

- `ForecastContext` (`forecast_context.dfy`) models the session store. It holds
  the shape of the service's answer (`ForecastResult` and its three optional
  series), the four cells the provider keeps (`ForecastStore`, a class with one
  setter per cell), and the `useForecast` guard (`UseForecast`).
- `UploadModal` (`upload_modal.dfy`) models the upload dialog.
  - As values: the dialog is a `Machine` and every user action is a function on
    it (`FileChange`, `Reset`, `OpenChange`, `Cancel`, `Upload`, `Click`).
  - As a class: `FileUploadModal` has the blocks of the source as methods that
    change its fields and the store. Each one is proved equal to the matching
    function.
  - The ghost log: everything that can be seen from outside goes into a log of
    `Event`s. That covers the busy flag, the request, each store write, each
    toast and each callback. Order and multiplicity are stated against this log.
    - `Replay` rebuilds the session from the store writes in the log.
    - `Scan` checks that busy-on and busy-off are bracketed and that each
      bracket sends at most one request.
  - `Run` drives the dialog through any sequence of actions, so the properties
    can be stated over whole sessions.

The network is not modelled as code. Each call of `fetch` is an `Outcome`
parameter:

- the promise is rejected;
- or a response with a status and a body, where the body either fails to parse
  or parses into a `ForecastResult`.

`response.ok` means a status from 200 to 299, as the Fetch standard defines it.

With no forecast type selected, `forecastType.toLowerCase()` on `null` throws
inside the `try` block (`src/components/ui/FileUploadModal.tsx:45`), before
`fetch` is reached. So no request goes out, an error toast is shown and the
store stays as it was (`AttemptEvents`, `AttemptRequests`).

## Model

| member | source | states |
|---|---|---|
| ForecastContext.ForecastStore.constructor | src/context/ForecastContext.tsx:40-44 | The provider starts with no forecast type, no uploaded file, the success flag false and no result |
| ForecastContext.ForecastStore.SetForecastType | src/context/ForecastContext.tsx:41 | Replaces the forecast type and leaves the other three cells unchanged |
| ForecastContext.ForecastStore.SetUploadedFile | src/context/ForecastContext.tsx:42 | Replaces the uploaded file and leaves the other three cells unchanged |
| ForecastContext.ForecastStore.SetIsUploadSuccessful | src/context/ForecastContext.tsx:43 | Replaces the success flag and leaves the other three cells unchanged |
| ForecastContext.ForecastStore.SetForecastResult | src/context/ForecastContext.tsx:44 | Replaces the whole previous result, with no merging, and leaves the other three cells unchanged |
| ForecastContext.UseForecast | src/context/ForecastContext.tsx:65-71 | Succeeds exactly when a provider exists and then returns that provider's store itself; otherwise fails with "useForecast must be used within a ForecastProvider" |
| UploadModal.ToLower | src/components/ui/FileUploadModal.tsx:45 | Lower-casing keeps the length and lower-cases each character on its own |
| UploadModal.ToLowerIsLower | src/components/ui/FileUploadModal.tsx:45 | The value sent as `forecast_type` has no upper-case letter, and lower-casing it again changes nothing |
| UploadModal.ReplayMeaning | src/context/ForecastContext.tsx:41-57 | Replaying a log of store writes: the result is the last one written, or the old one if none was written; the success flag is true iff it was already true or a success write occurred; the forecast type is never touched |
| UploadModal.AttemptRequests | src/components/ui/FileUploadModal.tsx:41-55 | An attempt sends no request when the forecast type is absent. Otherwise it sends exactly one, holding the selected file and the lower-cased type |
| UploadModal.FailedAttemptEffects | src/components/ui/FileUploadModal.tsx:57-61 | A failed attempt (no type, rejected fetch, status outside the ok range, or an unparsable body) shows exactly one error toast. It shows no success toast, calls neither `onUploadSuccess` nor `onClose`, and writes nothing to the store |
| UploadModal.FailedAttemptReplay | src/components/ui/FileUploadModal.tsx:75-77 | A failed attempt leaves the session exactly as it was |
| UploadModal.SucceededAttemptNotifies | src/components/ui/FileUploadModal.tsx:72-74 | A successful attempt shows the success toast once and calls `onUploadSuccess` and `onClose` exactly once each |
| UploadModal.SucceededAttemptNoError | src/components/ui/FileUploadModal.tsx:75-77 | A successful attempt shows no error toast |
| UploadModal.SucceededAttemptOrder | src/components/ui/FileUploadModal.tsx:64-74 | In a successful attempt every store write comes before every callback, and `onUploadSuccess` comes before `onClose` |
| UploadModal.SucceededAttemptReplay | src/components/ui/FileUploadModal.tsx:64-69 | A successful attempt stores the parsed result, the selected file and the success flag true, and changes nothing in the session apart from these |
| UploadModal.AttemptOneRequest | src/components/ui/FileUploadModal.tsx:36-82 | Every attempt raises the busy flag once, sends at most one request while it is raised, and lowers it again |
| UploadModal.FileChange | src/components/ui/FileUploadModal.tsx:23-27 | When some file is picked, the first one replaces the selection. An empty or missing file list changes nothing |
| UploadModal.Reset | src/components/ui/FileUploadModal.tsx:29-34 | Clears the selection and leaves the busy flag, the session and the log unchanged |
| UploadModal.OpenChange | src/components/ui/FileUploadModal.tsx:85-90 | Opening changes nothing. Closing clears the selection and calls `onClose` once, and the session stays unchanged |
| UploadModal.Cancel | src/components/ui/FileUploadModal.tsx:139-141 | Cancel calls `onClose` once. It keeps the selection and leaves the session unchanged |
| UploadModal.Upload | src/components/ui/FileUploadModal.tsx:36-82 | With no selection, nothing happens. Otherwise the attempt's events are logged, the selection is cleared and the busy flag ends up false. A failure leaves the session unchanged; a success stores the result, the file and the success flag |
| UploadModal.UploadInParts | src/components/ui/FileUploadModal.tsx:36-82 | The upload step built from its parts (busy on, the try block, busy off, reset) equals `Upload`. Appending it keeps the log well bracketed |
| UploadModal.Click | src/components/ui/FileUploadModal.tsx:143-145 | A click on the disabled Upload button (no selection, or an upload already in flight) does nothing. An enabled click performs `Upload` |
| UploadModal.NoSecondRequestInFlight | src/components/ui/FileUploadModal.tsx:144 | A click while an upload is in flight sends nothing and changes nothing |
| UploadModal.PickThenRemove | src/components/ui/FileUploadModal.tsx:23-34 | Picking files and then removing the selection gives the same dialog as removing it directly, with the session unchanged |
| UploadModal.SalesScenario | src/components/ui/FileUploadModal.tsx:43-45 | `sales.csv` of 2048 bytes under the type `Prophet` goes out as that file with `forecast_type` set to `prophet` |
| UploadModal.IllShapedResultIsStored | src/components/ui/FileUploadModal.tsx:61-65 | The parsed answer is not checked: a result whose forecast and dates differ in length is stored as it is |
| UploadModal.StepAppends | src/components/ui/FileUploadModal.tsx:23-145 | Every user action only appends to the log. The new session is the replay of what it appended |
| UploadModal.StepQuiescent | src/components/ui/FileUploadModal.tsx:36-82 | Every user action keeps the dialog idle between actions, with a well-bracketed log |
| UploadModal.RunQuiescent | src/components/ui/FileUploadModal.tsx:36-82 | Over any sequence of actions the dialog is idle between actions and never has two requests in flight |
| UploadModal.RunReplays | src/context/ForecastContext.tsx:41-57 | Over any run the log only grows. The session is the replay of the store writes the run appended |
| UploadModal.RunSession | src/components/ui/FileUploadModal.tsx:64-69 | From a fresh dialog, after any run: the stored result is the last one written; the success flag is true iff it started true or some upload succeeded; the forecast type is never changed by the dialog; no request is left in flight |
| UploadModal.RunRequests | src/components/ui/FileUploadModal.tsx:143-145 | Only Upload clicks send requests, at most one per click |
| UploadModal.FileUploadModal.constructor | src/components/ui/FileUploadModal.tsx:17-21 | A new dialog, rendered inside a provider, works on the store `useForecast` returns. It has no selection, is not uploading, and has an empty log |
| UploadModal.FileUploadModal.HandleFileChange | src/components/ui/FileUploadModal.tsx:23-27 | Changes only the selection, exactly as `FileChange` does |
| UploadModal.FileUploadModal.ResetFileInput | src/components/ui/FileUploadModal.tsx:29-34 | Changes only the selection, exactly as `Reset` does |
| UploadModal.FileUploadModal.OnOpenChange | src/components/ui/FileUploadModal.tsx:85-90 | Acts as `OpenChange` does and keeps the log well bracketed |
| UploadModal.FileUploadModal.OnCancel | src/components/ui/FileUploadModal.tsx:139-141 | Acts as `Cancel` does and keeps the log well bracketed |
| UploadModal.FileUploadModal.HandleUpload | src/components/ui/FileUploadModal.tsx:36-82 | Changes the dialog and the store exactly as `Upload` does, and ends idle with a well-bracketed log |
| UploadModal.FileUploadModal.TryUpload | src/components/ui/FileUploadModal.tsx:41-77 | Its events, wrapped in busy on and busy off, are the attempt's events, read with the forecast type found in the store. On failure the store is unchanged; on success it receives exactly the three writes |
| UploadModal.FileUploadModal.ClickUpload | src/components/ui/FileUploadModal.tsx:143-145 | Changes the dialog and the store exactly as `Click` does |

## Left out

- HTTP, FormData and JSON parsing: `fetch` and `response.json()` become the `Outcome` parameter, and the endpoint URL is not modelled.
- Interleaving during the upload: `handleUpload` is async, and the model runs it as one atomic step. The busy flag is set before the first `await`, so a second click does land on a disabled button. What the atomic step loses is what the user can still do while the requests at lines 52 and 61 are pending:
  - close the dialog through `onOpenChange` (lines 85-90) or press Cancel (line 140);
  - pick a new file once the input is shown again, which the `finally` block at lines 78-81 then clears;
  - `setUploadedFile` at line 68 stores the file captured at the click, not the current selection. The model cannot tell these two apart, since nothing changes the selection mid-upload.
- Rendering: toasts, spinners and the dialog layout are left out, and toasts are log events only.
- `console.log`/`console.error` are left out, and so is the file-size text (`size / 1024` printed with two decimals, which is floating point).
- Clearing the DOM input element through `fileInputRef` is a foreign call and is left out. Only `setSelectedFile(null)` is modelled.
- What the callbacks do: `onUploadSuccess` and `onClose` are log events. What a parent does with them, including reopening or closing the dialog through `isOpen`, is not part of this model.
- AttemptEvents: assumes that `toast.success`, `onUploadSuccess` and `onClose` (lines 72-74) return normally. They run inside the `try` block. If one of them threw, the `catch` at lines 75-77 would run after the three store writes at lines 65-69. An error toast would be shown, the callbacks after the one that threw would be skipped, and the store would keep the new result. The success toast comes before the error toast only when `onUploadSuccess` or `onClose` is the one that throws; if `toast.success` throws, only the error toast appears. `SucceededAttemptNotifies`, `SucceededAttemptNoError` and `SucceededAttemptOrder` hold under this assumption.
- FileUploadModal.constructor: requires `UseForecast` to succeed. Outside a provider, `useForecast` at line 18 throws during rendering, so no dialog exists.
- The series of a `ForecastResult` are `seq<real>`, while JavaScript has `number[]`, so NaN and the infinities cannot be represented. No operation computes on these values; they are only stored and handed on.
- The pages that set the forecast type and open the dialog are not among the modelled files. `src/pages/Index.tsx` is a form that only navigates. So the store's other writers appear only through the setters.
- The commented-out earlier version of the context is not modelled.
- ToLower: lower-cases ASCII letters only. JavaScript's full Unicode case mapping is not modelled.
- FileUploadModal.Valid: states only that the dialog is idle and its log well bracketed. The store's contents are not tied to the log, because other pages write the store too; that link is stated on the pure runs (`RunSession`).
- The store does not enforce that a result's series have matching lengths. `WellShaped` describes that agreement, and nothing requires or ensures it (`IllShapedResultIsStored`). A response of valid JSON but a different shape is modelled only as some `ForecastResult`.
- Body: a body of JSON `null` is not modelled. `response.json()` would resolve to `null`, line 65 would store it, and the result cell would read "no result" while line 69 still sets the success flag true. `Json` always carries a result, so the model always stores `Some` on success.
