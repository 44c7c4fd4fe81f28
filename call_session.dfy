/** The call page's state machine: starting a call, polling its status, resetting. */
module CallSession {
  import opened Util
  import opened PhoneRegions
  import opened PhoneFormat
  import opened CallStart

  datatype CallStatus = Idle | Calling | InCall | Completed | Failed

  /** The number of status polls after which polling gives up. */
  const MaxPolls: nat := 300

  /** The page's state variables, plus the counter and the running flag of the active
      status poll (`polls`, `polling`). */
  datatype Page = Page(
    phoneNumber: string,
    selectedRegion: string,
    status: CallStatus,
    progress: int,
    isProcessing: bool,
    callId: Option<string>,
    errorMessage: string,
    polls: nat,
    polling: bool)

  /** What the call endpoint answered to the start request: a new call, a refusal with
      its `error` text (empty when absent), or a thrown error with its message. */
  datatype StartReply = CallCreated(id: string) | CallRefused(error: string) | RequestFailed(message: string)

  /** What one status poll got: the reported status, or a request that threw. */
  datatype PollReply = Reported(callStatus: string) | PollFailed

  /** The things that can happen to the page. */
  datatype Event =
    | Typed(value: string)
    | RegionChosen(code: string)
    | StartClicked
    | StartAnswered(reply: StartReply)
    | Tick(poll: PollReply)
    | ResetClicked
    | ErrorDismissed

  function Initial(): Page {
    Page("", "US", Idle, 0, false, None, "", 0, false)
  }

  // ---------------------------------------------------------------------------
  // Handlers, each as a function of the page state

  /** The phone input re-formats the whole field on every change. */
  function OnTyped(s: Page, value: string): Page {
    s.(phoneNumber := FormatPhoneNumber(value, s.selectedRegion))
  }

  /** Choosing a region clears the field. */
  function OnRegionChosen(s: Page, code: string): Page {
    s.(selectedRegion := code, phoneNumber := "")
  }

  /** The synchronous part of `handleStartCall`, up to the request being sent. */
  function OnStart(s: Page): Page {
    var cleared := s.(errorMessage := "");
    match ValidateStart(s.phoneNumber, s.selectedRegion)
    case Err(m) => cleared.(errorMessage := m)
    case Ok(_) => cleared.(isProcessing := true, status := Calling, progress := 10)
  }

  /** The message a refusal shows: the endpoint's error, or a fixed text when it sent none. */
  function RefusalMessage(error: string): string {
    if error == "" then "Failed to initiate call" else error
  }

  /** The rest of `handleStartCall`, once the endpoint has answered. A new call starts a
      status poll with a fresh counter. */
  function OnStartAnswered(s: Page, reply: StartReply): Page {
    match reply
    case CallCreated(id) =>
      s.(callId := Some(id), progress := 30, status := InCall, polls := 0, polling := true)
    case CallRefused(error) =>
      s.(errorMessage := RefusalMessage(error), status := Failed, isProcessing := false, progress := 0)
    case RequestFailed(message) =>
      s.(errorMessage := message, status := Failed, isProcessing := false, progress := 0)
  }

  predicate IsFinishedStatus(st: string) {
    st == "completed" || st == "ended"
  }

  predicate IsFailedStatus(st: string) {
    st == "failed" || st == "error"
  }

  /** One tick of the status poll. The counter goes up first; a request that throws
      changes nothing else, not even the give-up check. */
  function OnTick(s: Page, reply: PollReply): Page {
    var count := s.polls + 1;
    match reply
    case PollFailed => s.(polls := count)
    case Reported(st) =>
      var ticked := s.(polls := count, progress := Min(s.progress + 2, 95));
      var judged :=
        if IsFinishedStatus(st) then
          ticked.(progress := 100, status := Completed, isProcessing := false, polling := false)
        else if IsFailedStatus(st) then
          ticked.(status := Failed, isProcessing := false, errorMessage := "Call failed", polling := false)
        else ticked;
      if count >= MaxPolls then judged.(polling := false, status := Completed, isProcessing := false)
      else judged
  }

  function OnReset(s: Page): Page {
    s.(status := Idle, progress := 0, isProcessing := false, callId := None, errorMessage := "")
  }

  function OnErrorDismissed(s: Page): Page {
    s.(errorMessage := "")
  }

  /** Which controls the page offers: the inputs and the start button only while idle
      (the button also disabled while processing), the reset button only once completed,
      the dismiss button only while a message shows. A start answer arrives only while
      calling, and ticks arrive only while polling. */
  predicate Enabled(s: Page, e: Event) {
    match e
    case Typed(_) => s.status == Idle
    case RegionChosen(_) => s.status == Idle
    case StartClicked => s.status == Idle && !s.isProcessing
    case StartAnswered(_) => s.status == Calling
    case Tick(_) => s.polling
    case ResetClicked => s.status == Completed
    case ErrorDismissed => s.errorMessage != ""
  }

  function Step(s: Page, e: Event): Page {
    match e
    case Typed(v) => OnTyped(s, v)
    case RegionChosen(c) => OnRegionChosen(s, c)
    case StartClicked => OnStart(s)
    case StartAnswered(r) => OnStartAnswered(s, r)
    case Tick(r) => OnTick(s, r)
    case ResetClicked => OnReset(s)
    case ErrorDismissed => OnErrorDismissed(s)
  }

  /** A sequence of events; one whose control is not offered has no effect. */
  function Run(s: Page, es: seq<Event>): Page
    decreases |es|
  {
    if es == [] then s
    else if Enabled(s, es[0]) then Run(Step(s, es[0]), es[1..])
    else Run(s, es[1..])
  }

  /** The status poll driven by a sequence of replies, until it stops or they run out. */
  function Polled(s: Page, rs: seq<PollReply>): Page
    decreases |rs|
  {
    if rs == [] || !s.polling then s else Polled(OnTick(s, rs[0]), rs[1..])
  }

  // ---------------------------------------------------------------------------
  // The invariant of the page

  /** What holds of the page in every state the events can reach. */
  predicate Inv(s: Page) {
    && 0 <= s.progress <= 100
    && (s.polling <==> s.status == InCall)
    && (s.status == Idle ==> s.progress == 0 && !s.isProcessing && s.callId == None)
    && (s.status == Calling ==> s.isProcessing && s.progress == 10 && s.callId == None)
    && (s.status == InCall ==> s.isProcessing && s.callId.Some? && 30 <= s.progress <= 95)
    && (s.status == Completed ==>
          !s.isProcessing && s.callId.Some? && (s.progress == 100 || s.polls >= MaxPolls))
    && (s.status == Failed ==> !s.isProcessing && s.progress <= 95)
  }

  lemma InitialInv()
    ensures Inv(Initial()) && Initial().status == Idle && Initial().selectedRegion == "US"
  {
  }

  lemma TickPreservesInv(s: Page, r: PollReply)
    requires Inv(s) && s.polling
    ensures Inv(OnTick(s, r))
  {
  }

  /** Every control the page offers keeps the invariant. */
  lemma StepPreservesInv(s: Page, e: Event)
    requires Inv(s) && Enabled(s, e)
    ensures Inv(Step(s, e))
  {
    match e
    case Tick(r) => TickPreservesInv(s, r);
    case _ =>
  }

  /** Hence the invariant holds after any sequence of events from the initial page. */
  lemma {:induction false} RunPreservesInv(s: Page, es: seq<Event>)
    requires Inv(s)
    ensures Inv(Run(s, es))
    decreases |es|
  {
    if es != [] {
      if Enabled(s, es[0]) {
        StepPreservesInv(s, es[0]);
        RunPreservesInv(Step(s, es[0]), es[1..]);
      } else {
        RunPreservesInv(s, es[1..]);
      }
    }
  }

  lemma ReachableInv(es: seq<Event>)
    ensures Inv(Run(Initial(), es))
  {
    InitialInv();
    RunPreservesInv(Initial(), es);
  }

  /** The progress bar is full only for a completed call, and is otherwise at most 95. */
  lemma ProgressFullOnlyWhenCompleted(s: Page)
    requires Inv(s)
    ensures s.progress == 100 ==> s.status == Completed
    ensures s.status != Completed ==> s.progress <= 95
  {
  }

  // ---------------------------------------------------------------------------
  // Starting a call

  /** A start click either shows the validation error and stays idle, or moves to
      calling with progress 10; a stale message is cleared either way. */
  lemma StartOutcome(s: Page)
    requires Inv(s) && Enabled(s, StartClicked)
    ensures var t := OnStart(s);
      && (t.status == Calling <==> ValidateStart(s.phoneNumber, s.selectedRegion).Ok?)
      && (t.status == Calling ==> t.progress == 10 && t.isProcessing && t.errorMessage == "")
      && (t.status != Calling ==>
            t.status == Idle && t.errorMessage == ValidateStart(s.phoneNumber, s.selectedRegion).message
            && t.errorMessage != "")
      && t.phoneNumber == s.phoneNumber && t.selectedRegion == s.selectedRegion
  {
    WrongLengthNonEmpty(s.selectedRegion);
  }

  lemma WrongLengthNonEmpty(code: string)
    ensures forall r :: FindRegion(code) == Some(r) ==> WrongLengthMessage(r) != ""
  {
    forall r | FindRegion(code) == Some(r)
      ensures WrongLengthMessage(r) != ""
    {
      assert WrongLengthMessage(r)[0] == 'P';
    }
  }

  /** Typing into the field and clicking start reaches calling exactly when at least the
      region's digit count was typed. */
  lemma TypeThenStart(s: Page, typed: string, region: Region)
    requires Inv(s) && Enabled(s, StartClicked)
    requires region in Regions && region.code == s.selectedRegion
    ensures var t := OnStart(OnTyped(s, typed));
      t.status == Calling <==> |Digits(typed)| >= region.digits
  {
    LookupFindsEntry(s.selectedRegion, region);
    var u := OnTyped(s, typed);
    FormattedFieldAccepted(typed, s.selectedRegion, region);
    StartOutcome(u);
  }

  /** A created call puts the page in the call with progress 30 and starts polling with a
      fresh counter; a refusal or a thrown error fails the call with progress 0 and the
      message shown. */
  lemma StartAnsweredOutcome(s: Page, reply: StartReply)
    requires Inv(s) && Enabled(s, StartAnswered(reply))
    ensures var t := OnStartAnswered(s, reply);
      && (reply.CallCreated? ==>
            t.status == InCall && t.progress == 30 && t.callId == Some(reply.id)
            && t.polling && t.polls == 0 && t.isProcessing)
      && (reply.CallRefused? ==>
            t.status == Failed && t.progress == 0 && !t.isProcessing && t.callId == None
            && t.errorMessage == RefusalMessage(reply.error) && t.errorMessage != "")
      && (reply.RequestFailed? ==>
            t.status == Failed && t.progress == 0 && !t.isProcessing && t.errorMessage == reply.message)
  {
  }

  // ---------------------------------------------------------------------------
  // Polling

  /** A poll that reported a status moves the bar up by two, capped at 95, unless the
      call finished, which fills it. */
  lemma TickProgress(s: Page, r: PollReply)
    requires Inv(s) && s.polling
    ensures var t := OnTick(s, r);
      && t.progress >= s.progress
      && (t.progress == 100 <==> r.Reported? && IsFinishedStatus(r.callStatus))
      && (r.Reported? && !IsFinishedStatus(r.callStatus) ==> t.progress == Min(s.progress + 2, 95))
  {
  }

  /** When one tick stops the poll and what it leaves. A `failed` report fails the call
      unless that tick is the last allowed one, where giving up reports completion instead;
      the failure message stays either way. */
  lemma TickOutcome(s: Page, r: PollReply)
    requires Inv(s) && s.polling
    ensures var t := OnTick(s, r);
      && t.polls == s.polls + 1
      && (r.PollFailed? ==> t == s.(polls := s.polls + 1))
      && (!t.polling <==>
            r.Reported? && (IsFinishedStatus(r.callStatus) || IsFailedStatus(r.callStatus) || t.polls >= MaxPolls))
      && (t.status == Completed <==>
            r.Reported? && (IsFinishedStatus(r.callStatus) || t.polls >= MaxPolls))
      && (t.status == Failed <==>
            r.Reported? && !IsFinishedStatus(r.callStatus) && IsFailedStatus(r.callStatus) && t.polls < MaxPolls)
      && (r.Reported? && IsFailedStatus(r.callStatus) && !IsFinishedStatus(r.callStatus) ==>
            t.errorMessage == "Call failed")
      && (t.polling ==> t.status == InCall && t.errorMessage == s.errorMessage)
  {
  }

  /** Once the poll has had enough reported statuses to bring its counter to the limit,
      it has stopped. */
  lemma {:induction false} PollingStops(s: Page, rs: seq<PollReply>)
    requires |rs| >= 1 && s.polls + |rs| >= MaxPolls
    requires forall i :: 0 <= i < |rs| ==> rs[i].Reported?
    ensures !Polled(s, rs).polling
    decreases |rs|
  {
    if s.polling {
      var t := OnTick(s, rs[0]);
      if t.polling {
        assert t.polls < MaxPolls;
        PollingStops(t, rs[1..]);
      }
    }
  }

  /** Requests that keep throwing never stop the poll: the limit is only checked after a
      status has been read. */
  lemma {:induction false} FailedPollsNeverStop(s: Page, rs: seq<PollReply>)
    requires s.polling
    requires forall i :: 0 <= i < |rs| ==> rs[i] == PollFailed
    ensures Polled(s, rs) == s.(polls := s.polls + |rs|)
    decreases |rs|
  {
    if rs != [] {
      FailedPollsNeverStop(OnTick(s, rs[0]), rs[1..]);
    }
  }

  // ---------------------------------------------------------------------------
  // Ending

  /** Reset, offered once the call completed, returns to an idle page from which a new
      call can be started; the field and the region are kept. */
  lemma ResetOutcome(s: Page)
    requires Inv(s) && Enabled(s, ResetClicked)
    ensures var t := OnReset(s);
      && t.status == Idle && t.progress == 0 && !t.isProcessing && t.callId == None
      && t.errorMessage == "" && !t.polling
      && t.phoneNumber == s.phoneNumber && t.selectedRegion == s.selectedRegion
      && Inv(t) && Enabled(t, StartClicked)
  {
  }

  /** A failed call offers no way forward: the only control left is dismissing the
      message, so the page stays failed. */
  lemma FailedIsFinal(s: Page, e: Event)
    requires Inv(s) && s.status == Failed
    ensures Enabled(s, e) <==> e == ErrorDismissed && s.errorMessage != ""
    ensures Enabled(s, e) ==> Step(s, e).status == Failed
  {
  }

  lemma {:induction false} FailedStaysFailed(s: Page, es: seq<Event>)
    requires Inv(s) && s.status == Failed
    ensures Run(s, es).status == Failed
    decreases |es|
  {
    if es != [] {
      FailedIsFinal(s, es[0]);
      if Enabled(s, es[0]) {
        StepPreservesInv(s, es[0]);
        FailedStaysFailed(Step(s, es[0]), es[1..]);
      } else {
        FailedStaysFailed(s, es[1..]);
      }
    }
  }

  // ---------------------------------------------------------------------------
  // The page as an object whose handlers update its state step by step

  class CallAgent {
    var phoneNumber: string
    var selectedRegion: string
    var callStatus: CallStatus
    var callProgress: int
    var isProcessing: bool
    var callId: Option<string>
    var errorMessage: string
    var pollCount: nat
    var polling: bool

    function State(): Page
      reads this
    {
      Page(phoneNumber, selectedRegion, callStatus, callProgress, isProcessing, callId,
           errorMessage, pollCount, polling)
    }

    predicate Valid()
      reads this
    {
      Inv(State())
    }

    constructor ()
      ensures Valid() && State() == Initial()
    {
      phoneNumber := "";
      selectedRegion := "US";
      callStatus := Idle;
      callProgress := 0;
      isProcessing := false;
      callId := None;
      errorMessage := "";
      pollCount := 0;
      polling := false;
    }

    method Edit(value: string)
      requires Valid() && Enabled(State(), Typed(value))
      modifies this
      ensures Valid() && State() == OnTyped(old(State()), value)
    {
      phoneNumber := FormatPhoneNumber(value, selectedRegion);
    }

    method SelectRegion(code: string)
      requires Valid() && Enabled(State(), RegionChosen(code))
      modifies this
      ensures Valid() && State() == OnRegionChosen(old(State()), code)
    {
      selectedRegion := code;
      phoneNumber := "";
    }

    /** Clears the message, validates the field and either shows the validation error or
        enters the calling state; returns the number sent to the call endpoint, if any. */
    method StartCall() returns (dialed: Option<string>)
      requires Valid() && Enabled(State(), StartClicked)
      modifies this
      ensures Valid() && State() == OnStart(old(State()))
      ensures var v := ValidateStart(old(phoneNumber), old(selectedRegion));
        dialed == if v.Ok? then Some(v.value) else None
    {
      StepPreservesInv(State(), StartClicked);
      errorMessage := "";
      var outcome := ValidateStart(phoneNumber, selectedRegion);
      match outcome
      case Err(message) =>
        errorMessage := message;
        dialed := None;
      case Ok(number) =>
        isProcessing := true;
        callStatus := Calling;
        callProgress := 10;
        dialed := Some(number);
    }

    method ReceiveStartReply(reply: StartReply)
      requires Valid() && Enabled(State(), StartAnswered(reply))
      modifies this
      ensures Valid() && State() == OnStartAnswered(old(State()), reply)
    {
      StepPreservesInv(State(), StartAnswered(reply));
      match reply
      case CallCreated(id) =>
        callId := Some(id);
        callProgress := 30;
        callStatus := InCall;
        pollCount := 0;
        polling := true;
      case CallRefused(error) =>
        errorMessage := RefusalMessage(error);
        callStatus := Failed;
        isProcessing := false;
        callProgress := 0;
      case RequestFailed(message) =>
        errorMessage := message;
        callStatus := Failed;
        isProcessing := false;
        callProgress := 0;
    }

    /** One interval tick, given what the status request produced. */
    method PollTick(reply: PollReply)
      requires Valid() && Enabled(State(), Tick(reply))
      modifies this
      ensures Valid() && State() == OnTick(old(State()), reply)
    {
      TickPreservesInv(State(), reply);
      pollCount := pollCount + 1;
      match reply
      case PollFailed =>
      case Reported(st) =>
        callProgress := Min(callProgress + 2, 95);
        if IsFinishedStatus(st) {
          callProgress := 100;
          callStatus := Completed;
          isProcessing := false;
          polling := false;
        } else if IsFailedStatus(st) {
          callStatus := Failed;
          isProcessing := false;
          errorMessage := "Call failed";
          polling := false;
        }
        if pollCount >= MaxPolls {
          polling := false;
          callStatus := Completed;
          isProcessing := false;
        }
    }

    method Reset()
      requires Valid() && Enabled(State(), ResetClicked)
      modifies this
      ensures Valid() && State() == OnReset(old(State()))
    {
      callStatus := Idle;
      callProgress := 0;
      isProcessing := false;
      callId := None;
      errorMessage := "";
    }

    method DismissError()
      requires Valid() && Enabled(State(), ErrorDismissed)
      modifies this
      ensures Valid() && State() == OnErrorDismissed(old(State()))
    {
      errorMessage := "";
    }
  }
}
