/**
 * The upload dialog: a small state machine over the selected file and the
 * busy flag, driving one POST of the file to the forecasting service and
 * writing the answer into the session store.
 *
 * The pure part describes the dialog as a value (`Machine`) and each user
 * action as a function on it; the class `FileUploadModal` is the dialog
 * itself, whose methods change its fields and the store and are proved to
 * agree with those functions. Every observable effect of an attempt is
 * recorded in a log of `Event`s, so that order and multiplicity can be stated.
 */
module UploadModal {
  import opened ForecastContext

  // ---------------------------------------------------------------------------
  // The network and the request
  // ---------------------------------------------------------------------------

  /** What `response.json()` yields: a parse failure or the parsed payload. */
  datatype Body = Unparsable | Json(result: ForecastResult)

  /** What `fetch` yields: a rejected promise, or a response with its status and body. */
  datatype Outcome = FetchRejected | Response(status: int, body: Body)

  /** `response.ok` of the Fetch standard: the status lies in the range 200 to 299. */
  predicate IsOk(status: int) {
    200 <= status <= 299
  }

  /** The multipart body: the `file` field and the `forecast_type` field. */
  datatype Request = Request(file: File, forecastType: string)

  /** `toLowerCase` on its ASCII range. */
  function LowerChar(c: char): (d: char)
    ensures !('A' <= d <= 'Z')
    ensures d == c || 'A' <= c <= 'Z'
  {
    if 'A' <= c <= 'Z' then (c as int + 32) as char else c
  }

  function ToLower(s: string): (r: string)
    ensures |r| == |s|
    ensures forall i :: 0 <= i < |s| ==> r[i] == LowerChar(s[i])
  {
    if s == [] then [] else [LowerChar(s[0])] + ToLower(s[1..])
  }

  /** The value sent as `forecast_type` never holds an upper-case letter, and lowering it again changes nothing. */
  lemma ToLowerIsLower(s: string)
    ensures forall i :: 0 <= i < |ToLower(s)| ==> !('A' <= ToLower(s)[i] <= 'Z')
    ensures ToLower(ToLower(s)) == ToLower(s)
  {
  }

  // ---------------------------------------------------------------------------
  // The log of observable effects
  // ---------------------------------------------------------------------------

  datatype Event =
    | BusyOn                           // setIsUploading(true)
    | BusyOff                          // setIsUploading(false)
    | Sent(request: Request)           // fetch is called with this body
    | StoreResult(result: ForecastResult)  // setForecastResult(result)
    | StoreFile(file: File)            // setUploadedFile(selectedFile)
    | StoreSuccess                     // setIsUploadSuccessful(true)
    | ToastSuccess                     // the "uploaded successfully" notification
    | ToastError                       // the "please try again" notification
    | CalledOnUploadSuccess            // the onUploadSuccess callback
    | CalledOnClose                    // the onClose callback
  {
    predicate IsWrite() { StoreResult? || StoreFile? || StoreSuccess? }
    predicate IsCallback() { CalledOnUploadSuccess? || CalledOnClose? }
  }

  /** How many times `e` occurs in `log`. */
  function Count(log: seq<Event>, e: Event): (n: nat)
    ensures n <= |log|
    ensures n == 0 <==> e !in log
  {
    if log == [] then 0
    else
      assert log == [log[0]] + log[1..];
      (if log[0] == e then 1 else 0) + Count(log[1..], e)
  }

  lemma {:induction false} CountConcat(a: seq<Event>, b: seq<Event>, e: Event)
    ensures Count(a + b, e) == Count(a, e) + Count(b, e)
  {
    if a == [] {
      assert a + b == b;
    } else {
      assert (a + b)[0] == a[0];
      assert (a + b)[1..] == a[1..] + b;
      CountConcat(a[1..], b, e);
    }
  }

  /** An event that occurs at one position and nowhere else occurs once. */
  lemma CountOnce(log: seq<Event>, k: nat, e: Event)
    requires k < |log| && log[k] == e
    requires forall i :: 0 <= i < |log| && i != k ==> log[i] != e
    ensures Count(log, e) == 1
  {
    var a, b := log[..k], log[k + 1..];
    assert log == a + [e] + b;
    assert e !in a && e !in b by {
      assert forall i :: 0 <= i < |a| ==> a[i] == log[i];
      assert forall i :: 0 <= i < |b| ==> b[i] == log[k + 1 + i];
    }
    CountConcat(a + [e], b, e);
    CountConcat(a, [e], e);
    assert Count([e], e) == 1 + Count([e][1..], e);
  }

  /** The requests in `log`, in the order they were sent. */
  function Requests(log: seq<Event>): (rs: seq<Request>)
    ensures |rs| <= |log|
  {
    if log == [] then []
    else (if log[0].Sent? then [log[0].request] else []) + Requests(log[1..])
  }

  lemma {:induction false} RequestsConcat(a: seq<Event>, b: seq<Event>)
    ensures Requests(a + b) == Requests(a) + Requests(b)
  {
    if a == [] {
      assert a + b == b;
    } else {
      var head := if a[0].Sent? then [a[0].request] else [];
      assert (a + b)[0] == a[0];
      assert (a + b)[1..] == a[1..] + b;
      RequestsConcat(a[1..], b);
      assert Requests(a + b) == head + (Requests(a[1..]) + Requests(b));
      assert head + (Requests(a[1..]) + Requests(b)) == (head + Requests(a[1..])) + Requests(b);
    }
  }

  lemma {:induction false} RequestsNone(log: seq<Event>)
    requires forall i :: 0 <= i < |log| ==> !log[i].Sent?
    ensures Requests(log) == []
  {
    if log != [] {
      RequestsNone(log[1..]);
    }
  }

  // ---------------------------------------------------------------------------
  // The session as the replay of the logged writes
  // ---------------------------------------------------------------------------

  /** The effect of one logged event on the session store. */
  function Apply(s: Session, e: Event): (t: Session)
    ensures !e.IsWrite() ==> t == s
    ensures t.forecastType == s.forecastType
  {
    match e
    case StoreResult(r) => s.(forecastResult := Some(r))
    case StoreFile(f) => s.(uploadedFile := Some(f))
    case StoreSuccess => s.(isUploadSuccessful := true)
    case _ => s
  }

  function Replay(s: Session, log: seq<Event>): Session
    decreases |log|
  {
    if log == [] then s else Replay(Apply(s, log[0]), log[1..])
  }

  lemma {:induction false} ReplayConcat(s: Session, a: seq<Event>, b: seq<Event>)
    decreases |a|
    ensures Replay(s, a + b) == Replay(Replay(s, a), b)
  {
    if a == [] {
      assert a + b == b;
    } else {
      assert (a + b)[1..] == a[1..] + b;
      ReplayConcat(Apply(s, a[0]), a[1..], b);
    }
  }

  /** A log without store writes leaves the session as it was. */
  lemma {:induction false} ReplayWithoutWrites(s: Session, log: seq<Event>)
    requires forall i :: 0 <= i < |log| ==> !log[i].IsWrite()
    ensures Replay(s, log) == s
  {
    if log != [] {
      ReplayWithoutWrites(s, log[1..]);
    }
  }

  /** The result of the last logged `StoreResult`, or `dflt` when there is none. */
  function LastResult(log: seq<Event>, dflt: Option<ForecastResult>): Option<ForecastResult>
  {
    if log == [] then dflt
    else if log[|log| - 1].StoreResult? then Some(log[|log| - 1].result)
    else LastResult(log[..|log| - 1], dflt)
  }

  /**
   * The store never merges results: after any log, the session holds the
   * last result written, the success flag is set exactly when it was set
   * before or a success was logged, and the forecast type is untouched.
   */
  lemma {:induction false} ReplayMeaning(s: Session, log: seq<Event>)
    ensures Replay(s, log).forecastResult == LastResult(log, s.forecastResult)
    ensures Replay(s, log).isUploadSuccessful <==> s.isUploadSuccessful || StoreSuccess in log
    ensures Replay(s, log).forecastType == s.forecastType
  {
    if log != [] {
      var init, last := log[..|log| - 1], log[|log| - 1];
      assert log == init + [last];
      ReplayConcat(s, init, [last]);
      ReplayMeaning(s, init);
      assert Replay(Replay(s, init), [last]) == Apply(Replay(s, init), last);
    }
  }

  // ---------------------------------------------------------------------------
  // "At most one request outstanding"
  // ---------------------------------------------------------------------------

  /** Between the busy flag going up and coming down, `sent` says whether the request went out. */
  datatype Phase = Idle | InFlight(sent: bool)

  function ScanOne(p: Phase, e: Event): Option<Phase>
  {
    match e
    case BusyOn => if p.Idle? then Some(InFlight(false)) else None
    case BusyOff => if p.InFlight? then Some(Idle) else None
    case Sent(_) => if p == InFlight(false) then Some(InFlight(true)) else None
    case _ => Some(p)
  }

  /** Follows the busy brackets through `log`; `None` when a bracket is broken. */
  function Scan(p: Phase, log: seq<Event>): Option<Phase>
    decreases |log|
  {
    if log == [] then Some(p)
    else match ScanOne(p, log[0])
      case None => None
      case Some(q) => Scan(q, log[1..])
  }

  lemma {:induction false} ScanConcat(p: Phase, a: seq<Event>, b: seq<Event>)
    decreases |a|
    ensures Scan(p, a + b) == match Scan(p, a) case None => None case Some(q) => Scan(q, b)
  {
    if a == [] {
      assert a + b == b;
    } else {
      assert (a + b)[1..] == a[1..] + b;
      match ScanOne(p, a[0])
      case None =>
      case Some(q) => ScanConcat(q, a[1..], b);
    }
  }

  /**
   * The busy flag is never raised twice without being lowered, every request
   * is sent while it is raised, at most one per raise, and it ends lowered.
   */
  predicate OneRequestAtATime(log: seq<Event>) {
    Scan(Idle, log) == Some(Idle)
  }

  /** A log without busy changes or requests keeps the phase. */
  lemma {:induction false} ScanQuiet(p: Phase, log: seq<Event>)
    requires forall i :: 0 <= i < |log| ==> !log[i].BusyOn? && !log[i].BusyOff? && !log[i].Sent?
    ensures Scan(p, log) == Some(p)
  {
    if log != [] {
      ScanQuiet(p, log[1..]);
    }
  }

  // ---------------------------------------------------------------------------
  // One upload attempt
  // ---------------------------------------------------------------------------

  /** Whether an attempt gets through every check of the `try` block. */
  predicate Succeeds(forecastType: Option<string>, o: Outcome) {
    forecastType.Some? && o.Response? && IsOk(o.status) && o.body.Json?
  }

  /**
   * The effects of one attempt, in program order: busy on, the `try` block
   * or its `catch`, then the `finally` block. A null forecast type makes
   * `toLowerCase` throw before `fetch`, so no request goes out; a rejected
   * fetch, a status outside the ok range and an unparsable body all end in
   * the same `catch`.
   */
  function AttemptEvents(f: File, forecastType: Option<string>, o: Outcome): seq<Event> {
    if forecastType.None? then
      [BusyOn, ToastError, BusyOff]
    else if !Succeeds(forecastType, o) then
      [BusyOn, Sent(Request(f, ToLower(forecastType.value))), ToastError, BusyOff]
    else
      [BusyOn, Sent(Request(f, ToLower(forecastType.value))),
       StoreResult(o.body.result), StoreFile(f), StoreSuccess,
       ToastSuccess, CalledOnUploadSuccess, CalledOnClose,
       BusyOff]
  }

  /** The request of an attempt is the selected file with the lower-cased type, and it goes out only when the type is present. */
  lemma AttemptRequests(f: File, forecastType: Option<string>, o: Outcome)
    ensures Requests(AttemptEvents(f, forecastType, o))
         == if forecastType.None? then [] else [Request(f, ToLower(forecastType.value))]
  {
    var ev := AttemptEvents(f, forecastType, o);
    if forecastType.None? {
      RequestsNone(ev);
    } else {
      var head, tail := ev[..2], ev[2..];
      assert ev == head + tail;
      RequestsConcat(head, tail);
      RequestsNone(tail);
      assert head[1..] == [head[1]];
      RequestsNone(head[1..][1..]);
    }
  }

  /** A failed attempt notifies one error, no success, calls no callback and writes nothing to the store. */
  lemma FailedAttemptEffects(f: File, forecastType: Option<string>, o: Outcome)
    requires !Succeeds(forecastType, o)
    ensures var ev := AttemptEvents(f, forecastType, o);
      Count(ev, ToastError) == 1 && ToastSuccess !in ev &&
      CalledOnUploadSuccess !in ev && CalledOnClose !in ev &&
      forall i :: 0 <= i < |ev| ==> !ev[i].IsWrite()
  {
    var ev := AttemptEvents(f, forecastType, o);
    FailedAttemptQuiet(f, forecastType, o);
    CountOnce(ev, |ev| - 2, ToastError);
  }

  lemma FailedAttemptQuiet(f: File, forecastType: Option<string>, o: Outcome)
    requires !Succeeds(forecastType, o)
    ensures var ev := AttemptEvents(f, forecastType, o);
      forall i :: 0 <= i < |ev| ==>
        !ev[i].IsWrite() && !ev[i].IsCallback() && ev[i] != ToastSuccess
  {
  }

  lemma SucceededAttemptOnce(f: File, forecastType: Option<string>, o: Outcome, e: Event)
    requires Succeeds(forecastType, o)
    requires e == CalledOnUploadSuccess || e == CalledOnClose || e == ToastSuccess
    ensures Count(AttemptEvents(f, forecastType, o), e) == 1
  {
    var ev := AttemptEvents(f, forecastType, o);
    var k := if e == ToastSuccess then 5 else if e == CalledOnUploadSuccess then 6 else 7;
    CountOnce(ev, k, e);
  }

  /** A successful attempt notifies one success and no error, and calls `onUploadSuccess` and `onClose` exactly once each. */
  lemma SucceededAttemptNotifies(f: File, forecastType: Option<string>, o: Outcome)
    requires Succeeds(forecastType, o)
    ensures var ev := AttemptEvents(f, forecastType, o);
      Count(ev, CalledOnUploadSuccess) == 1 && Count(ev, CalledOnClose) == 1 &&
      Count(ev, ToastSuccess) == 1 && ToastError !in ev
  {
    SucceededAttemptOnce(f, forecastType, o, CalledOnUploadSuccess);
    SucceededAttemptOnce(f, forecastType, o, CalledOnClose);
    SucceededAttemptOnce(f, forecastType, o, ToastSuccess);
    SucceededAttemptNoError(f, forecastType, o);
  }

  lemma SucceededAttemptNoError(f: File, forecastType: Option<string>, o: Outcome)
    requires Succeeds(forecastType, o)
    ensures ToastError !in AttemptEvents(f, forecastType, o)
  {
    var ev := AttemptEvents(f, forecastType, o);
    assert forall i :: 0 <= i < |ev| ==> ev[i] != ToastError;
  }

  /** Cutting `log` at `k` puts every store write before every callback. */
  predicate WritesBefore(log: seq<Event>, k: nat) {
    k <= |log| &&
    (forall i :: 0 <= i < k ==> !log[i].IsCallback()) &&
    (forall i :: k <= i < |log| ==> !log[i].IsWrite())
  }

  /**
   * A successful attempt writes the result, the file and the flag before it
   * calls any callback, and calls `onUploadSuccess` before `onClose`.
   */
  lemma SucceededAttemptOrder(f: File, forecastType: Option<string>, o: Outcome)
    requires Succeeds(forecastType, o)
    ensures exists k :: WritesBefore(AttemptEvents(f, forecastType, o), k)
    ensures var ev := AttemptEvents(f, forecastType, o);
      exists k :: 0 <= k <= |ev| && CalledOnUploadSuccess in ev[..k] && CalledOnClose in ev[k..]
  {
    var ev := AttemptEvents(f, forecastType, o);
    assert WritesBefore(ev, 5);
    assert ev[..7][6] == CalledOnUploadSuccess;
    assert ev[7..][0] == CalledOnClose;
  }

  /** Replaying the three writes of a success. */
  lemma ReplaySuccessWrites(s: Session, f: File, r: ForecastResult)
    ensures Replay(s, [StoreResult(r), StoreFile(f), StoreSuccess])
         == s.(forecastResult := Some(r), uploadedFile := Some(f), isUploadSuccessful := true)
  {
    var writes := [StoreResult(r), StoreFile(f), StoreSuccess];
    var s1 := Apply(s, StoreResult(r));
    var s2 := Apply(s1, StoreFile(f));
    assert writes[1..] == [StoreFile(f), StoreSuccess];
    assert writes[1..][1..] == [StoreSuccess];
    assert Replay(s, writes) == Replay(s1, writes[1..]);
    assert Replay(s1, writes[1..]) == Replay(s2, [StoreSuccess]);
    assert Replay(s2, [StoreSuccess]) == Replay(Apply(s2, StoreSuccess), []);
  }

  /** A successful attempt writes the result, the file and the flag into the session, and nothing else. */
  lemma SucceededAttemptReplay(s: Session, f: File, forecastType: Option<string>, o: Outcome)
    requires Succeeds(forecastType, o)
    ensures Replay(s, AttemptEvents(f, forecastType, o))
         == s.(forecastResult := Some(o.body.result), uploadedFile := Some(f), isUploadSuccessful := true)
  {
    var ev := AttemptEvents(f, forecastType, o);
    var before, writes, after := ev[..2], ev[2..5], ev[5..];
    assert writes == [StoreResult(o.body.result), StoreFile(f), StoreSuccess];
    assert ev == before + writes + after;
    ReplayConcat(s, before + writes, after);
    ReplayConcat(s, before, writes);
    ReplayWithoutWrites(s, before);
    ReplaySuccessWrites(s, f, o.body.result);
    ReplayWithoutWrites(Replay(s, before + writes), after);
  }

  /** A failed attempt leaves the session exactly as it was. */
  lemma FailedAttemptReplay(s: Session, f: File, forecastType: Option<string>, o: Outcome)
    requires !Succeeds(forecastType, o)
    ensures Replay(s, AttemptEvents(f, forecastType, o)) == s
  {
    FailedAttemptEffects(f, forecastType, o);
    ReplayWithoutWrites(s, AttemptEvents(f, forecastType, o));
  }

  /** Every attempt raises the busy flag once, sends at most one request inside it, and lowers it. */
  lemma AttemptOneRequest(f: File, forecastType: Option<string>, o: Outcome)
    ensures OneRequestAtATime(AttemptEvents(f, forecastType, o))
  {
    var ev := AttemptEvents(f, forecastType, o);
    var k := if forecastType.None? then 1 else 2;
    var pre, quiet := ev[1..k], ev[k..|ev| - 1];
    assert ev == [BusyOn] + (pre + (quiet + [BusyOff]));
    var q := InFlight(forecastType.Some?);
    assert Scan(Idle, [BusyOn]) == Some(InFlight(false));
    assert Scan(InFlight(false), pre) == Some(q);
    ScanQuiet(q, quiet);
    assert Scan(q, [BusyOff]) == Some(Idle);
    ScanConcat(q, quiet, [BusyOff]);
    ScanConcat(InFlight(false), pre, quiet + [BusyOff]);
    ScanConcat(Idle, [BusyOn], pre + (quiet + [BusyOff]));
  }

  // ---------------------------------------------------------------------------
  // The dialog as a value
  // ---------------------------------------------------------------------------

  /** The dialog's two state cells, the session store it writes to, and the log so far. */
  datatype Machine = Machine(
    selected: Option<File>,
    uploading: bool,
    session: Session,
    log: seq<Event>)

  /** `handleFileChange`: the first picked file replaces the selection; no file, no change. */
  function FileChange(m: Machine, files: Option<seq<File>>): (r: Machine)
    ensures files.Some? && |files.value| > 0 ==> r == m.(selected := Some(files.value[0]))
    ensures files.None? || |files.value| == 0 ==> r == m
  {
    match files
    case Some(fs) => if |fs| > 0 then m.(selected := Some(fs[0])) else m
    case None => m
  }

  /** `resetFileInput`: the selection is cleared, nothing else changes. */
  function Reset(m: Machine): (r: Machine)
    ensures r.selected.None?
    ensures r.uploading == m.uploading && r.session == m.session && r.log == m.log
  {
    m.(selected := None)
  }

  /** The dialog's `onOpenChange`: closing resets the selection and calls `onClose`; opening does nothing. */
  function OpenChange(m: Machine, open: bool): (r: Machine)
    ensures open ==> r == m
    ensures !open ==> r.selected.None? && r.uploading == m.uploading && r.session == m.session
    ensures !open ==> r.log == m.log + [CalledOnClose]
  {
    if open then m else Reset(m).(log := m.log + [CalledOnClose])
  }

  /** The Cancel button only calls `onClose`: the selection stays. */
  function Cancel(m: Machine): (r: Machine)
    ensures r.selected == m.selected && r.uploading == m.uploading && r.session == m.session
    ensures r.log == m.log + [CalledOnClose]
  {
    m.(log := m.log + [CalledOnClose])
  }

  /**
   * `handleUpload`, run to completion: no selection, no effect; otherwise the
   * attempt's effects are logged, the session becomes the replay of its
   * writes, and the `finally` block leaves the dialog idle with no selection.
   */
  function Upload(m: Machine, o: Outcome): (r: Machine)
    ensures m.selected.None? ==> r == m
    ensures m.selected.Some? ==> r.selected.None? && !r.uploading
    ensures m.selected.Some? ==> r.log == m.log + AttemptEvents(m.selected.value, m.session.forecastType, o)
    ensures m.selected.Some? && !Succeeds(m.session.forecastType, o) ==> r.session == m.session
    ensures m.selected.Some? && Succeeds(m.session.forecastType, o) ==>
      r.session == m.session.(forecastResult := Some(o.body.result),
                              uploadedFile := m.selected,
                              isUploadSuccessful := true)
  {
    match m.selected
    case None => m
    case Some(f) =>
      var ev := AttemptEvents(f, m.session.forecastType, o);
      if Succeeds(m.session.forecastType, o) then
        SucceededAttemptReplay(m.session, f, m.session.forecastType, o);
        Machine(None, false, Replay(m.session, ev), m.log + ev)
      else
        FailedAttemptReplay(m.session, f, m.session.forecastType, o);
        Machine(None, false, Replay(m.session, ev), m.log + ev)
  }

  /**
   * `Upload` taken apart as the dialog's method performs it: busy on, the
   * `try` block with its effect on the session, busy off; the result keeps
   * the log well bracketed.
   */
  lemma UploadInParts(m: Machine, o: Outcome, s': Session, ev: seq<Event>)
    requires m.selected.Some?
    requires ev == AttemptEvents(m.selected.value, m.session.forecastType, o)
    requires s' == if Succeeds(m.session.forecastType, o)
                   then m.session.(forecastResult := Some(o.body.result),
                                   uploadedFile := m.selected,
                                   isUploadSuccessful := true)
                   else m.session
    ensures Upload(m, o) == Machine(None, false, s', m.log + ev)
    ensures OneRequestAtATime(m.log) ==> OneRequestAtATime(m.log + ev)
  {
    var f := m.selected.value;
    ScanConcat(Idle, m.log, ev);
    AttemptOneRequest(f, m.session.forecastType, o);
  }

  /** The Upload button is enabled only with a selection and no upload in flight. */
  predicate UploadEnabled(m: Machine) {
    m.selected.Some? && !m.uploading
  }

  /** A click on the Upload button: nothing happens while it is disabled. */
  function Click(m: Machine, o: Outcome): (r: Machine)
    ensures !UploadEnabled(m) ==> r == m
    ensures UploadEnabled(m) ==> r == Upload(m, o)
  {
    if UploadEnabled(m) then Upload(m, o) else m
  }

  // ---------------------------------------------------------------------------
  // Runs of user actions
  // ---------------------------------------------------------------------------

  datatype Action =
    | PickFiles(files: Option<seq<File>>)   // the file input's change event
    | ClickRemove                           // the X button beside the selected file
    | ChangeOpen(open: bool)                // the dialog's own open/close
    | ClickCancel
    | ClickUpload(outcome: Outcome)

  function Step(m: Machine, a: Action): Machine {
    match a
    case PickFiles(files) => FileChange(m, files)
    case ClickRemove => Reset(m)
    case ChangeOpen(open) => OpenChange(m, open)
    case ClickCancel => Cancel(m)
    case ClickUpload(o) => Click(m, o)
  }

  function Run(m: Machine, acts: seq<Action>): Machine
    decreases |acts|
  {
    if acts == [] then m else Run(Step(m, acts[0]), acts[1..])
  }

  function Clicks(acts: seq<Action>): nat {
    if acts == [] then 0 else (if acts[0].ClickUpload? then 1 else 0) + Clicks(acts[1..])
  }

  /** Between actions the dialog is idle and its log is well bracketed. */
  predicate Quiescent(m: Machine) {
    !m.uploading && OneRequestAtATime(m.log)
  }

  /** Every action appends to the log and leaves the session equal to the replay of what it appended. */
  lemma StepAppends(m: Machine, a: Action)
    ensures m.log <= Step(m, a).log
    ensures Step(m, a).session == Replay(m.session, Step(m, a).log[|m.log|..])
  {
    var r := Step(m, a);
    var delta: seq<Event> := [];
    match a {
    case ClickUpload(o) =>
      if UploadEnabled(m) {
        var f := m.selected.value;
        delta := AttemptEvents(f, m.session.forecastType, o);
        if Succeeds(m.session.forecastType, o) {
          SucceededAttemptReplay(m.session, f, m.session.forecastType, o);
        } else {
          FailedAttemptReplay(m.session, f, m.session.forecastType, o);
        }
      }
    case ChangeOpen(open) =>
      if !open {
        delta := [CalledOnClose];
      }
    case ClickCancel =>
      delta := [CalledOnClose];
    case PickFiles(_) =>
    case ClickRemove =>
    }
    assert r.log == m.log + delta;
    assert r.log[|m.log|..] == delta;
    assert r.session == Replay(m.session, delta);
  }

  /** Every action keeps the dialog quiescent. */
  lemma StepQuiescent(m: Machine, a: Action)
    requires Quiescent(m)
    ensures Quiescent(Step(m, a))
  {
    var r := Step(m, a);
    match a
    case ClickUpload(o) =>
      if UploadEnabled(m) {
        var ev := AttemptEvents(m.selected.value, m.session.forecastType, o);
        ScanConcat(Idle, m.log, ev);
        AttemptOneRequest(m.selected.value, m.session.forecastType, o);
      }
    case ChangeOpen(open) =>
      if !open {
        ScanConcat(Idle, m.log, [CalledOnClose]);
      }
    case ClickCancel =>
      ScanConcat(Idle, m.log, [CalledOnClose]);
    case PickFiles(_) =>
    case ClickRemove =>
  }

  /**
   * Over any run of user actions the dialog is idle between actions and at
   * most one request is ever outstanding.
   */
  lemma {:induction false} RunQuiescent(m: Machine, acts: seq<Action>)
    requires Quiescent(m)
    ensures Quiescent(Run(m, acts))
    decreases |acts|
  {
    if acts != [] {
      StepQuiescent(m, acts[0]);
      RunQuiescent(Step(m, acts[0]), acts[1..]);
    }
  }

  /** Over any run, the log only grows and the session is the replay of what the run appended. */
  lemma {:induction false} RunReplays(m: Machine, acts: seq<Action>)
    ensures m.log <= Run(m, acts).log
    ensures Run(m, acts).session == Replay(m.session, Run(m, acts).log[|m.log|..])
    decreases |acts|
  {
    if acts == [] {
      assert Run(m, acts).log[|m.log|..] == [];
    } else {
      var m1, r := Step(m, acts[0]), Run(m, acts);
      StepAppends(m, acts[0]);
      RunReplays(m1, acts[1..]);
      var d1, d2 := m1.log[|m.log|..], r.log[|m1.log|..];
      assert r.log[|m.log|..] == d1 + d2;
      ReplayConcat(m.session, d1, d2);
    }
  }

  /**
   * Starting from a fresh dialog, after any run the session holds the last
   * result written (or the one it had), the success flag is set only by a
   * logged success, and the forecast type is what it was.
   */
  lemma RunSession(s: Session, acts: seq<Action>)
    ensures var r := Run(Machine(None, false, s, []), acts);
      r.session.forecastResult == LastResult(r.log, s.forecastResult) &&
      (r.session.isUploadSuccessful <==> s.isUploadSuccessful || StoreSuccess in r.log) &&
      r.session.forecastType == s.forecastType &&
      OneRequestAtATime(r.log) && !r.uploading
  {
    var m := Machine(None, false, s, []);
    RunReplays(m, acts);
    assert Run(m, acts).log[|m.log|..] == Run(m, acts).log;
    ReplayMeaning(s, Run(m, acts).log);
    RunQuiescent(m, acts);
  }

  /** Only a click on Upload sends a request, and each click sends at most one. */
  lemma {:induction false} RunRequests(m: Machine, acts: seq<Action>)
    ensures |Requests(Run(m, acts).log)| <= |Requests(m.log)| + Clicks(acts)
    decreases |acts|
  {
    if acts != [] {
      var m1 := Step(m, acts[0]);
      assert |Requests(m1.log)| <= |Requests(m.log)| + (if acts[0].ClickUpload? then 1 else 0) by {
        match acts[0]
        case ClickUpload(o) =>
          if UploadEnabled(m) {
            var ev := AttemptEvents(m.selected.value, m.session.forecastType, o);
            RequestsConcat(m.log, ev);
            AttemptRequests(m.selected.value, m.session.forecastType, o);
          }
        case ChangeOpen(open) =>
          if !open { RequestsConcat(m.log, [CalledOnClose]); }
        case ClickCancel =>
          RequestsConcat(m.log, [CalledOnClose]);
        case PickFiles(_) =>
        case ClickRemove =>
      }
      RunRequests(m1, acts[1..]);
    }
  }

  /**
   * Picking a file and then removing it returns the dialog to where it was,
   * with no selection. A direct consequence of the contracts of `FileChange`
   * and `Reset`.
   */
  lemma PickThenRemove(m: Machine, files: Option<seq<File>>)
    ensures Reset(FileChange(m, files)) == Reset(m)
  {
  }

  /**
   * A second click while an upload is in flight sends nothing and changes
   * nothing. This exercises only the disabled rule of the Upload button:
   * since `Upload` runs as one step, no machine reached from a quiescent one
   * is ever uploading between actions (`RunQuiescent`).
   */
  lemma NoSecondRequestInFlight(m: Machine, o: Outcome)
    requires m.uploading
    ensures Click(m, o) == m
  {
  }

  /** `sales.csv` of 2048 bytes with the type `Prophet` goes out as that file with `forecast_type` `prophet`. */
  lemma SalesScenario(o: Outcome)
    ensures var f := File("sales.csv", seq(2048, _ => 0 as bv8));
      f.Size() == 2048 &&
      Requests(AttemptEvents(f, Some("Prophet"), o)) == [Request(f, "prophet")]
  {
    var f := File("sales.csv", seq(2048, _ => 0 as bv8));
    AttemptRequests(f, Some("Prophet"), o);
    assert ToLower("Prophet") == "prophet";
  }

  /**
   * Nothing checks the shape of a parsed answer: a result whose forecast and
   * dates disagree in length is stored like any other.
   */
  lemma IllShapedResultIsStored(m: Machine)
    requires m.selected.Some? && m.session.forecastType.Some?
    ensures var r := ForecastResult("prophet", Some(BoundedSeries([10.0], [], [], [], "prophet")), None, None);
      !WellShaped(r) && Upload(m, Response(200, Json(r))).session.forecastResult == Some(r)
  {
  }

  // ---------------------------------------------------------------------------
  // The dialog itself
  // ---------------------------------------------------------------------------

  class FileUploadModal {
    var selectedFile: Option<File>
    var isUploading: bool
    /** The store `useForecast` returned when the dialog rendered. */
    const store: ForecastStore
    /** Everything the dialog has done that someone else can observe. */
    ghost var log: seq<Event>

    ghost function Abstract(): Machine
      reads this, store
    {
      Machine(selectedFile, isUploading, store.Snapshot(), log)
    }

    ghost predicate Valid()
      reads this
    {
      !isUploading && OneRequestAtATime(log)
    }

    /** The dialog renders inside a provider: `useForecast` hands it the provider's store. */
    constructor (context: Option<ForecastStore>)
      requires UseForecast(context).Ok?
      ensures store == UseForecast(context).value
      ensures Abstract() == Machine(None, false, store.Snapshot(), [])
      ensures Valid()
    {
      store := UseForecast(context).value;
      selectedFile := None;
      isUploading := false;
      log := [];
    }

    method HandleFileChange(files: Option<seq<File>>)
      requires Valid()
      modifies this`selectedFile
      ensures Valid()
      ensures Abstract() == FileChange(old(Abstract()), files)
    {
      if files.Some? && |files.value| > 0 {
        selectedFile := Some(files.value[0]);
      }
    }

    method ResetFileInput()
      modifies this`selectedFile
      ensures Abstract() == Reset(old(Abstract()))
    {
      selectedFile := None;
    }

    method OnOpenChange(open: bool)
      requires Valid()
      modifies this`selectedFile, this`log
      ensures Valid()
      ensures Abstract() == OpenChange(old(Abstract()), open)
    {
      if !open {
        ResetFileInput();
        log := log + [CalledOnClose];
        ScanConcat(Idle, old(log), [CalledOnClose]);
      }
    }

    method OnCancel()
      requires Valid()
      modifies this`log
      ensures Valid()
      ensures Abstract() == Cancel(old(Abstract()))
    {
      log := log + [CalledOnClose];
      ScanConcat(Idle, old(log), [CalledOnClose]);
    }

    /** `handleUpload`: the guard, busy on, the `try` block, then the `finally` block. */
    method HandleUpload(o: Outcome)
      requires Valid()
      modifies this, store
      ensures Valid()
      ensures Abstract() == Upload(old(Abstract()), o)
    {
      if selectedFile.None? {
        return;
      }
      ghost var m := Abstract();
      var file := selectedFile.value;
      isUploading := true;
      log := log + [BusyOn];
      ghost var tried := TryUpload(file, o);
      isUploading := false;
      log := log + [BusyOff];
      ResetFileInput();
      ghost var ev := [BusyOn] + tried + [BusyOff];
      assert log == m.log + ev;
      UploadInParts(m, o, store.Snapshot(), ev);
    }

    /**
     * The `try` block and its `catch`: `toLowerCase` of a null type throws
     * before the request is built; a rejected fetch, a status outside the ok
     * range and an unparsable body throw after it.
     */
    method TryUpload(file: File, o: Outcome) returns (ghost tried: seq<Event>)
      modifies this`log, store
      ensures [BusyOn] + tried + [BusyOff] == AttemptEvents(file, old(store.forecastType), o)
      ensures log == old(log) + tried
      ensures !Succeeds(old(store.forecastType), o) ==> store.Snapshot() == old(store.Snapshot())
      ensures Succeeds(old(store.forecastType), o) ==>
        store.Snapshot() == old(store.Snapshot()).(forecastResult := Some(o.body.result),
                                                   uploadedFile := Some(file),
                                                   isUploadSuccessful := true)
    {
      match store.forecastType {
        case None =>
          tried := [ToastError];
        case Some(t) =>
          var request := Request(file, ToLower(t));
          tried := [Sent(request)];
          if o.FetchRejected? || !IsOk(o.status) || o.body.Unparsable? {
            tried := tried + [ToastError];
          } else {
            var result := o.body.result;
            store.SetForecastResult(Some(result));
            tried := tried + [StoreResult(result)];
            store.SetUploadedFile(Some(file));
            tried := tried + [StoreFile(file)];
            store.SetIsUploadSuccessful(true);
            tried := tried + [StoreSuccess];
            tried := tried + [ToastSuccess];
            tried := tried + [CalledOnUploadSuccess];
            tried := tried + [CalledOnClose];
          }
      }
      log := log + tried;
    }

    method ClickUpload(o: Outcome)
      requires Valid()
      modifies this, store
      ensures Valid()
      ensures Abstract() == Click(old(Abstract()), o)
    {
      if selectedFile.Some? && !isUploading {
        HandleUpload(o);
      }
    }
  }
}
