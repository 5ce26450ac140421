/**
  * The tree-upload page: a capture session that binds one chosen image to a
  * timestamp taken at selection time and to a geolocation fix, and the rules
  * that decide which controls the page shows.
  *
  * The page keeps six pieces of state (image, location, timestamp, error,
  * isRequestingLocation, locationPermission). Beside them the model records
  * what the page has asked of the platform's location provider: the options
  * of every `getCurrentPosition` call (`requests`) and how many of those calls
  * have called back so far (`resolved`). The provider calls back at most once
  * per request, with either a position or an error, and possibly never (an
  * unanswered permission prompt).
  *
  * The pure functions below are the specification of each event handler;
  * class `Session` performs the same handlers by updating its fields one by one.
  */
module CaptureSession {
  import opened Text

  /** The browser's `File` object; only carried along, never inspected. */
  datatype File = File(name: string, mimeType: string)

  /** A position fix. The coordinates are stored and handed on, never computed with. */
  datatype Coords = Coords(lat: real, lng: real)

  /** The geolocation permission as the Permissions API reports it. */
  datatype PermissionState = Granted | Denied | Prompt

  /** The three codes of a `GeolocationPositionError`. */
  datatype PositionErrorCode = PermissionDenied | PositionUnavailable | Timeout

  /** The options object passed to `getCurrentPosition`. */
  datatype PositionOptions = PositionOptions(enableHighAccuracy: bool, timeout: nat, maximumAge: nat)

  /** Highest accuracy, give up after ten seconds, never accept a cached fix. */
  const RequestOptions := PositionOptions(true, 10000, 0)

  /** What `new Date().toISOString()` yields: never the empty string. */
  type Timestamp = s: string | |s| > 0 witness "1970-01-01T00:00:00.000Z"

  /** The record the submit handler hands on (to the console, in the source). */
  datatype UploadRecord = UploadRecord(image: File, location: Coords, timestamp: string)

  // The page's messages. Each one is split before every 'd' it holds, so that
  // the proofs about `includes("denied")` can take the text piece by piece.
  const UnsupportedMessage := "Geolocation is not supporte" + "d" + " by your browser."
  const PermissionDeniedMessage := "Location access was " + "denied" + ". Please enable it in your browser settings."
  const TimeoutMessage := "Location request time" + "d" + " out. Please try again."
  const DefaultFailureMessage := "Please allow location access to uploa" + "d" + " tree images."
  const PreviouslyDeniedMessage := "Location permission was previously " + "denied" + ". Please enable it in your browser settings."
  const NoImageMessage := "Please choose an image."
  const NoLocationMessage := "Location is require" + "d" + ". Please allow location access."

  /** Every value the `error` field can hold. */
  const ErrorTexts: set<string> := {"", UnsupportedMessage, PermissionDeniedMessage, TimeoutMessage,
    DefaultFailureMessage, PreviouslyDeniedMessage, NoImageMessage, NoLocationMessage}

  datatype CaptureState = CaptureState(
    image: Option<File>,
    location: Option<Coords>,
    timestamp: string,
    error: string,
    isRequestingLocation: bool,
    locationPermission: Option<PermissionState>,
    requests: seq<PositionOptions>,
    resolved: nat)
  {
    /** Some `getCurrentPosition` call has not called back yet. */
    predicate Outstanding() {
      resolved < |requests|
    }
  }

  /** The state when the page mounts: every `useState` initial value, no request made. */
  function Initial(): (s: CaptureState)
    ensures s.image == None && s.location == None && s.timestamp == "" && s.error == ""
    ensures !s.isRequestingLocation && s.locationPermission == None && s.requests == [] && s.resolved == 0
  {
    CaptureState(None, None, "", "", false, None, [], 0)
  }

  /**
    * What every reachable state satisfies: an image and its timestamp are
    * present together; the "waiting for location" indicator is on only while
    * a request is outstanding; every request used `RequestOptions`; the error
    * is one of the page's own messages.
    */
  ghost predicate Valid(s: CaptureState) {
    && s.resolved <= |s.requests|
    && (s.image.Some? <==> s.timestamp != "")
    && (s.isRequestingLocation ==> s.Outstanding())
    && (forall k :: 0 <= k < |s.requests| ==> s.requests[k] == RequestOptions)
    && s.error in ErrorTexts
  }

  /** The message the failure callback shows for an error code. */
  function FailureMessage(code: PositionErrorCode): (m: string)
    ensures m in ErrorTexts - {""}
    ensures Contains(m, "denied") <==> code == PermissionDenied
    ensures code == PermissionDenied ==> m == PermissionDeniedMessage
    ensures code == Timeout ==> m == TimeoutMessage
    ensures code == PositionUnavailable ==> m == DefaultFailureMessage
  {
    DeniedMessagesSayDenied();
    OtherMessagesDoNot();
    match code
    case PermissionDenied => PermissionDeniedMessage
    case Timeout => TimeoutMessage
    case PositionUnavailable => DefaultFailureMessage
  }

  /** `requestLocation`, up to the moment it hands the request to the provider. */
  function StartLocationRequest(s: CaptureState, geolocationAvailable: bool): (r: CaptureState)
    ensures r.image == s.image && r.timestamp == s.timestamp && r.location == s.location
    ensures r.locationPermission == s.locationPermission && r.resolved == s.resolved
    ensures geolocationAvailable ==>
      r.isRequestingLocation && r.error == "" && r.requests == s.requests + [RequestOptions]
    ensures !geolocationAvailable ==>
      !r.isRequestingLocation && r.error == UnsupportedMessage && r.requests == s.requests
  {
    var started := s.(isRequestingLocation := true, error := "");
    if !geolocationAvailable then
      started.(error := UnsupportedMessage, isRequestingLocation := false)
    else
      started.(requests := started.requests + [RequestOptions])
  }

  /**
    * `handleFileChange`: the first chosen file, if any, becomes the image, the
    * clock value becomes the timestamp, the error is cleared and a location
    * request starts. A previous location is kept.
    */
  function SelectFile(s: CaptureState, files: seq<File>, now: Timestamp, geolocationAvailable: bool): (r: CaptureState)
    ensures files == [] ==> r == s
    ensures files != [] ==>
      && r.image == Some(files[0]) && r.timestamp == now
      && r.location == s.location && r.locationPermission == s.locationPermission
      && r == StartLocationRequest(s.(image := Some(files[0]), timestamp := now, error := ""), geolocationAvailable)
  {
    if files == [] then s
    else StartLocationRequest(s.(image := Some(files[0]), timestamp := now, error := ""), geolocationAvailable)
  }

  /** The success callback: the fix is stored and the indicator turned off; the error stays. */
  function ApplyPosition(s: CaptureState, c: Coords): (r: CaptureState)
    requires s.Outstanding()
    ensures r.location == Some(c) && !r.isRequestingLocation && r.resolved == s.resolved + 1
    ensures r.error == s.error && r.image == s.image && r.timestamp == s.timestamp
    ensures r.locationPermission == s.locationPermission && r.requests == s.requests
  {
    s.(location := Some(c), isRequestingLocation := false, resolved := s.resolved + 1)
  }

  /** The failure callback: no location, the indicator off, one message chosen by the code. */
  function ApplyPositionError(s: CaptureState, code: PositionErrorCode): (r: CaptureState)
    requires s.Outstanding()
    ensures r.location == None && !r.isRequestingLocation && r.resolved == s.resolved + 1
    ensures r.error == FailureMessage(code) && Contains(r.error, "denied") == (code == PermissionDenied)
    ensures r.image == s.image && r.timestamp == s.timestamp
    ensures r.locationPermission == s.locationPermission && r.requests == s.requests
  {
    s.(location := None, error := FailureMessage(code), isRequestingLocation := false, resolved := s.resolved + 1)
  }

  /**
    * `handleManualLocationRequest`: when the permission is known to be denied,
    * only the "previously denied" message is set and the provider is not asked;
    * otherwise it is `requestLocation`.
    */
  function RetryLocation(s: CaptureState, geolocationAvailable: bool): (r: CaptureState)
    ensures s.locationPermission == Some(Denied) ==>
      r == s.(error := PreviouslyDeniedMessage) && r.requests == s.requests
    ensures s.locationPermission != Some(Denied) ==> r == StartLocationRequest(s, geolocationAvailable)
  {
    if s.locationPermission == Some(Denied) then s.(error := PreviouslyDeniedMessage)
    else StartLocationRequest(s, geolocationAvailable)
  }

  /**
    * `handleSubmit`: reports the first missing piece; with both an image and a
    * location it changes nothing (not even a previous error).
    */
  function Submit(s: CaptureState): (r: CaptureState)
    ensures s.image.None? ==> r == s.(error := NoImageMessage)
    ensures s.image.Some? && s.location.None? ==> r == s.(error := NoLocationMessage)
    ensures s.image.Some? && s.location.Some? ==> r == s
    ensures r.(error := s.error) == s
  {
    if s.image.None? then s.(error := NoImageMessage)
    else if s.location.None? then s.(error := NoLocationMessage)
    else s
  }

  /** What `handleSubmit` hands on: the record, exactly when image and location are present. */
  function SubmittedRecord(s: CaptureState): (u: Option<UploadRecord>)
    ensures u.Some? <==> s.image.Some? && s.location.Some?
    ensures u.Some? ==>
      u.value.image == s.image.value && u.value.location == s.location.value && u.value.timestamp == s.timestamp
  {
    if s.image.Some? && s.location.Some? then Some(UploadRecord(s.image.value, s.location.value, s.timestamp))
    else None
  }

  /** The permission query's result, and every later `onchange`, replace the known permission. */
  function UpdatePermission(s: CaptureState, p: PermissionState): (r: CaptureState)
    ensures r.locationPermission == Some(p) && r.(locationPermission := s.locationPermission) == s
  {
    s.(locationPermission := Some(p))
  }

  // ----- What the page shows -----

  /**
    * The upload button's `disabled` attribute. An enabled button means the
    * handler hands the record on and changes nothing; a disabled one means the
    * handler refuses, unless the only reason is a request in flight.
    */
  function SubmitDisabled(s: CaptureState): (disabled: bool)
    ensures !disabled ==> Submit(s) == s && SubmittedRecord(s).Some?
    ensures disabled && !s.isRequestingLocation ==> SubmittedRecord(s).None? && Submit(s).error != ""
  {
    s.image.None? || s.location.None? || s.isRequestingLocation
  }

  /** The "Request Location Again" button is rendered: there is no fix and none is awaited, so upload is off. */
  function RetryButtonShown(s: CaptureState): (shown: bool)
    ensures shown ==> SubmitDisabled(s) && SubmittedRecord(s).None?
    ensures shown <==> s.location.None? && !s.isRequestingLocation
  {
    s.location.None? && !s.isRequestingLocation
  }

  /**
    * The "Check browser settings" hint under a non-empty error. Of the page's
    * messages, exactly the two about a denied permission bring it up.
    */
  function SettingsHintShown(s: CaptureState): (shown: bool)
    ensures s.error in ErrorTexts ==>
      (shown <==> s.error == PermissionDeniedMessage || s.error == PreviouslyDeniedMessage)
  {
    DeniedMessagesSayDenied();
    OtherMessagesDoNot();
    s.error != "" && Contains(s.error, "denied")
  }

  // ----- Events, and every state reachable from the initial one -----

  datatype Event =
    | PermissionChange(state: PermissionState)
    | FileChange(files: seq<File>, now: Timestamp, geolocationAvailable: bool)
    | PositionSuccess(coords: Coords)
    | PositionFailure(code: PositionErrorCode)
    | ManualRequest(geolocationAvailable: bool)
    | SubmitClick

  /** One event. The provider delivers a callback only for an outstanding request. */
  function Step(s: CaptureState, e: Event): CaptureState {
    match e
    case PermissionChange(p) => UpdatePermission(s, p)
    case FileChange(files, now, geo) => SelectFile(s, files, now, geo)
    case PositionSuccess(c) => if s.Outstanding() then ApplyPosition(s, c) else s
    case PositionFailure(code) => if s.Outstanding() then ApplyPositionError(s, code) else s
    case ManualRequest(geo) => RetryLocation(s, geo)
    case SubmitClick => Submit(s)
  }

  function Run(s: CaptureState, events: seq<Event>): CaptureState
    decreases |events|
  {
    if events == [] then s else Run(Step(s, events[0]), events[1..])
  }

  lemma InitialValid()
    ensures Valid(Initial())
  {
  }

  lemma StepKeepsValid(s: CaptureState, e: Event)
    requires Valid(s)
    ensures Valid(Step(s, e))
  {
  }

  /** The invariant holds after any sequence of events. */
  lemma {:induction false} RunKeepsValid(s: CaptureState, events: seq<Event>)
    requires Valid(s)
    ensures Valid(Run(s, events))
    decreases |events|
  {
    if events != [] {
      StepKeepsValid(s, events[0]);
      RunKeepsValid(Step(s, events[0]), events[1..]);
    }
  }

  /** In every reachable state an image comes with a timestamp and vice versa. */
  lemma ReachableImageHasTimestamp(events: seq<Event>)
    ensures var s := Run(Initial(), events);
      (s.image.Some? <==> s.timestamp != "") && (s.isRequestingLocation ==> s.Outstanding())
  {
    InitialValid();
    RunKeepsValid(Initial(), events);
  }

  // ----- Properties of the messages and of the rendering rules -----

  lemma DeniedMessagesSayDenied()
    ensures Contains(PermissionDeniedMessage, "denied")
    ensures Contains(PreviouslyDeniedMessage, "denied")
  {
    PresentAfter("Location access was ", "denied", ". Please enable it in your browser settings.");
    PresentAfter("Location permission was previously ", "denied", ". Please enable it in your browser settings.");
  }

  lemma OtherMessagesDoNot()
    ensures !Contains(UnsupportedMessage, "denied")
    ensures !Contains(TimeoutMessage, "denied")
    ensures !Contains(DefaultFailureMessage, "denied")
    ensures !Contains(NoImageMessage, "denied")
    ensures !Contains(NoLocationMessage, "denied")
  {
    AbsentAround("Geolocation is not supporte", 'd', " by your browser.", "denied");
    AbsentAround("Location request time", 'd', " out. Please try again.", "denied");
    AbsentAround("Please allow location access to uploa", 'd', " tree images.", "denied");
    AbsentHead(NoImageMessage, "denied");
    AbsentAround("Location is require", 'd', ". Please allow location access.", "denied");
  }

  /** The handler itself does not look at the request indicator: it hands on while a request is in flight. */
  lemma SubmitIgnoresInFlightRequest(s: CaptureState)
    requires s.image.Some? && s.location.Some? && s.isRequestingLocation
    ensures SubmitDisabled(s) && SubmittedRecord(s).Some? && Submit(s) == s
  {
  }

  /** Submitting twice leaves the same state as submitting once. */
  lemma SubmitIdempotent(s: CaptureState)
    ensures Submit(Submit(s)) == Submit(s)
    ensures SubmittedRecord(Submit(s)) == SubmittedRecord(s)
  {
  }

  /**
    * No guard against a late fix: after two selections, a fix that arrives
    * while the second request is still outstanding is paired with the second
    * image, whichever request it answers.
    */
  lemma LateFixPairsWithNewerImage(a: File, b: File, ta: Timestamp, tb: Timestamp, c: Coords)
    ensures var s := Run(Initial(), [FileChange([a], ta, true), FileChange([b], tb, true), PositionSuccess(c)]);
      s.image == Some(b) && s.timestamp == tb && s.location == Some(c) && s.Outstanding()
  {
    var s1 := Step(Initial(), FileChange([a], ta, true));
    var s2 := Step(s1, FileChange([b], tb, true));
    var s3 := Step(s2, PositionSuccess(c));
    var events := [FileChange([a], ta, true), FileChange([b], tb, true), PositionSuccess(c)];
    assert events[1..][1..][1..] == [];
    assert Run(Initial(), events) == Run(s1, events[1..]) == Run(s2, events[1..][1..]) == Run(s3, []);
    assert |s2.requests| == 2;
  }

  /** A new selection keeps the location obtained for the previous image. */
  lemma ReselectionKeepsLocation(s: CaptureState, f: File, now: Timestamp)
    requires s.location.Some?
    ensures SelectFile(s, [f], now, true).location == s.location
    ensures !SubmitDisabled(SelectFile(s, [f], now, true).(isRequestingLocation := false))
  {
  }

  // ----- The page itself, with its state in fields -----

  /** The hidden `<input type="file">` element. */
  class FileInput {
    var value: string
    var clicks: nat

    constructor ()
      ensures value == "" && clicks == 0
    {
      value := "";
      clicks := 0;
    }
  }

  class Session {
    var image: Option<File>
    var location: Option<Coords>
    var timestamp: string
    var error: string
    var isRequestingLocation: bool
    var locationPermission: Option<PermissionState>
    // the provider's side: options of each request made, and callbacks received
    var requests: seq<PositionOptions>
    var resolved: nat

    function State(): CaptureState
      reads this
    {
      CaptureState(image, location, timestamp, error, isRequestingLocation, locationPermission, requests, resolved)
    }

    constructor ()
      ensures State() == Initial()
    {
      image, location, timestamp, error := None, None, "", "";
      isRequestingLocation, locationPermission := false, None;
      requests, resolved := [], 0;
    }

    /** The permission query's `then`, and the `onchange` it installs. */
    method OnPermissionChange(p: PermissionState)
      modifies this
      ensures State() == UpdatePermission(old(State()), p)
    {
      locationPermission := Some(p);
    }

    /** `handleFileTrigger`: when the input is mounted, clear it and open the picker. */
    method HandleFileTrigger(input: FileInput?)
      modifies input
      ensures input != null ==> input.value == "" && input.clicks == old(input.clicks) + 1
      ensures State() == old(State())
    {
      if input != null {
        input.value := "";
        input.clicks := input.clicks + 1;
      }
    }

    method HandleFileChange(files: seq<File>, now: Timestamp, geolocationAvailable: bool)
      modifies this
      ensures State() == SelectFile(old(State()), files, now, geolocationAvailable)
    {
      if files == [] {
        return;
      }
      image := Some(files[0]);
      timestamp := now;
      error := "";
      RequestLocation(geolocationAvailable);
    }

    method RequestLocation(geolocationAvailable: bool)
      modifies this
      ensures State() == StartLocationRequest(old(State()), geolocationAvailable)
    {
      isRequestingLocation := true;
      error := "";
      if !geolocationAvailable {
        error := UnsupportedMessage;
        isRequestingLocation := false;
        return;
      }
      requests := requests + [RequestOptions];
    }

    method OnPositionSuccess(c: Coords)
      requires resolved < |requests|
      modifies this
      ensures State() == ApplyPosition(old(State()), c)
    {
      location := Some(c);
      isRequestingLocation := false;
      resolved := resolved + 1;
    }

    method OnPositionError(code: PositionErrorCode)
      requires resolved < |requests|
      modifies this
      ensures State() == ApplyPositionError(old(State()), code)
    {
      location := None;
      var message := DefaultFailureMessage;
      if code == PermissionDenied {
        message := PermissionDeniedMessage;
      } else if code == Timeout {
        message := TimeoutMessage;
      }
      error := message;
      isRequestingLocation := false;
      resolved := resolved + 1;
    }

    method HandleManualLocationRequest(geolocationAvailable: bool)
      modifies this
      ensures State() == RetryLocation(old(State()), geolocationAvailable)
    {
      if locationPermission == Some(Denied) {
        error := PreviouslyDeniedMessage;
        return;
      }
      RequestLocation(geolocationAvailable);
    }

    method HandleSubmit() returns (logged: Option<UploadRecord>)
      modifies this
      ensures State() == Submit(old(State()))
      ensures logged == SubmittedRecord(old(State()))
    {
      if image.None? {
        error := NoImageMessage;
        return None;
      }
      if location.None? {
        error := NoLocationMessage;
        return None;
      }
      logged := Some(UploadRecord(image.value, location.value, timestamp));
    }
  }
}
