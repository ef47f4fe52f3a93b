/**
  The view model behind the summary popover: the display strings, the
  enabled flag with the labels that follow it, the error message, and the
  polling timer. Each network call of the original is a SwiftHole request
  whose completion runs on the main queue; here every entry point returns
  the request it issues and takes the completion's result as an argument,
  so the completion runs synchronously at the end of the call.
 */
module ViewModel {
  import opened Wrappers
  import opened SwiftHole
  import opened Text

  /** Seconds between two polls of the timer. */
  const PollingTimeInterval: int := 3

  // The user-interface labels. Their definitions are not part of this model;
  // the values below stand for them, and the proofs use only that each pair differs.
  const StatusEnabled: string := "Enabled"
  const StatusDisabled: string := "Disabled"
  const ButtonEnable: string := "Enable"
  const ButtonDisable: string := "Disable"

  const NoHostMessage: string := "Open Settings to configure your host address"

  /** The status label shown for a value of `active`. */
  function StatusLabel(active: bool): string {
    if active then StatusEnabled else StatusDisabled
  }

  /** The title of the button that toggles blocking, for a value of `active`. */
  function ButtonTitle(active: bool): string {
    if active then ButtonDisable else ButtonEnable
  }

  /** A formatter's output, or "-" when it produced nothing. */
  function OrDash(formatted: Option<string>): string {
    formatted.GetOr("-")
  }

  /** Whether a summary's status string means that blocking is on. */
  predicate IsEnabledStatus(status: string) {
    Lowercased(status) == "enabled"
  }

  /** The message `handleError` shows for each error. */
  function ErrorMessage(error: SwiftHoleError): string {
    match error
    case MalformedURL => "Invalid URL"
    case InvalidDecode(description) => "Can't decode response: " + description
    case NoAPITokenProvided => "No API Token Provided"
    case SessionError(description) => "Session error: " + description
    case InvalidResponseCode(code) => "Session error: " + IntToDecimal(code)
    case InvalidResponse => "Invalid Response"
  }

  /** `a` is a session error whose description reads like the status code of `b`. */
  predicate LooksLikeResponseCode(a: SwiftHoleError, b: SwiftHoleError) {
    a.SessionError? && b.InvalidResponseCode? && a.sessionDescription == IntToDecimal(b.responseCode)
  }

  /**
    The comparison in `updateData` ignores case: a status is taken as enabled
    exactly when it is "enabled" with any of its letters capitalised.
   */
  lemma EnabledStatusIgnoresCase(status: string)
    ensures IsEnabledStatus(status) <==>
              |status| == 7 &&
              forall i :: 0 <= i < 7 ==> status[i] == "enabled"[i] || status[i] == UpperChar("enabled"[i])
  {
    LowercasedEqualsIff(status, "enabled");
  }

  /**
    Two errors show the same message exactly when they are equal, or one is a
    session error whose description is the decimal text of the other's
    response code: both kinds use the prefix "Session error: ".
   */
  lemma ErrorMessagesEqualIff(a: SwiftHoleError, b: SwiftHoleError)
    ensures ErrorMessage(a) == ErrorMessage(b) <==>
              a == b || LooksLikeResponseCode(a, b) || LooksLikeResponseCode(b, a)
  {
    var ma, mb := ErrorMessage(a), ErrorMessage(b);
    if ma == mb {
      // The first character tells the families apart; a shared prefix leaves the suffixes equal.
      assert ma[0] == mb[0];
      match a
      case InvalidDecode(d) =>
        assert ma[..23] == "Can't decode response: " == mb[..23];
        assert d == ma[23..] == mb[23..];
      case SessionError(d) =>
        assert ma[..15] == "Session error: " == mb[..15];
        assert d == ma[15..] == mb[15..];
        if b.InvalidResponseCode? { assert d == IntToDecimal(b.responseCode); }
      case InvalidResponseCode(c) =>
        assert ma[..15] == "Session error: " == mb[..15];
        assert IntToDecimal(c) == ma[15..] == mb[15..];
        if b.InvalidResponseCode? { IntToDecimalInjective(c, b.responseCode); }
      case _ =>
    }
  }

  /**
    No error leaves the message empty or shows the missing-host hint, so the
    view can tell an error from a reset message and from a missing host.
   */
  lemma ErrorMessageIsDistinctive(error: SwiftHoleError)
    ensures ErrorMessage(error) != "" && ErrorMessage(error) != NoHostMessage
  {
    var m := ErrorMessage(error);
    assert m[0] != NoHostMessage[0];
  }

  /** The Pi-hole connection settings; the user may edit them while the view model lives. */
  class Settings {
    var host: string
    var apiToken: string

    constructor (host: string, apiToken: string)
      ensures this.host == host && this.apiToken == apiToken
    {
      this.host := host;
      this.apiToken := apiToken;
    }
  }

  /** Identifies a repeating timer handed to the run loop. */
  type TimerId = nat

  class PiHoleViewModel {
    var totalQueries: string
    var queriesBlocked: string
    var percentBlocked: string
    var domainsOnBlocklist: string
    var errorMessage: string
    var active: bool
    var changeStatusButtonTitle: string
    var status: string

    /** The last timer scheduled by `StartPolling`, if any. */
    var timer: Option<TimerId>
    /** The timers the run loop still fires: scheduled and not yet invalidated. */
    var runningTimers: set<TimerId>
    /** The identity the next scheduled timer receives. */
    var nextTimerId: TimerId

    const settings: Settings
    /** The decimal number formatter (no fraction digits, locale grouping). */
    const numberFormatter: int -> Option<string>
    /** The percent formatter (exactly two fraction digits). */
    const percentageFormatter: real -> Option<string>

    /**
      The labels follow `active`: either `active` has never been assigned and
      both labels are still empty, or both match its value.
     */
    ghost predicate Valid()
      reads this
    {
      ((!active && status == "" && changeStatusButtonTitle == "") ||
       (status == StatusLabel(active) && changeStatusButtonTitle == ButtonTitle(active))) &&
      (forall t :: t in runningTimers ==> t < nextTimerId) &&
      (timer.Some? ==> timer.value < nextTimerId)
    }

    twostate predicate CountsUnchanged()
      reads this
    {
      totalQueries == old(totalQueries) && queriesBlocked == old(queriesBlocked) &&
      percentBlocked == old(percentBlocked) && domainsOnBlocklist == old(domainsOnBlocklist)
    }

    twostate predicate ActiveUnchanged()
      reads this
    {
      active == old(active) && status == old(status) &&
      changeStatusButtonTitle == old(changeStatusButtonTitle)
    }

    twostate predicate TimersUnchanged()
      reads this
    {
      timer == old(timer) && runningTimers == old(runningTimers) && nextTimerId == old(nextTimerId)
    }

    /** `active` was assigned `value`, and its observer set both labels from it. */
    predicate ActiveIs(value: bool)
      reads this
    {
      active == value && status == StatusLabel(value) && changeStatusButtonTitle == ButtonTitle(value)
    }

    /** The effect of `updateData(summary)`. */
    twostate predicate AppliedSummary(summary: Summary)
      reads this
    {
      totalQueries == OrDash(numberFormatter(summary.dnsQueriesToday)) &&
      queriesBlocked == OrDash(numberFormatter(summary.adsBlockedToday)) &&
      percentBlocked == OrDash(percentageFormatter(summary.adsPercentageToday / 100.0)) &&
      domainsOnBlocklist == OrDash(numberFormatter(summary.domainsBeingBlocked)) &&
      ActiveIs(IsEnabledStatus(summary.status)) &&
      errorMessage == old(errorMessage)
    }

    /** The effect of `handleError(error)`: the message, and nothing else. */
    twostate predicate AppliedError(error: SwiftHoleError)
      reads this
    {
      errorMessage == ErrorMessage(error) && CountsUnchanged() && ActiveUnchanged()
    }

    /** The effect of one `fetchSummaryData()` whose request, if issued, answered `response`. */
    twostate predicate Fetched(response: Result<Summary, SwiftHoleError>, new request: Option<Request>)
      reads this, settings
    {
      if settings.host == "" then
        request == None && errorMessage == NoHostMessage && CountsUnchanged() && ActiveUnchanged()
      else
        request == Some(FetchSummary(settings.host, settings.apiToken)) &&
        match response
        case Success(summary) => AppliedSummary(summary)
        case Failure(error) => AppliedError(error)
    }

    /** The effect of an enable or disable request that answered `response`. */
    twostate predicate Toggled(target: bool, response: Result<(), SwiftHoleError>)
      reads this
    {
      match response
      case Success(_) => ActiveIs(target) && CountsUnchanged() && errorMessage == old(errorMessage)
      case Failure(error) => AppliedError(error)
    }

    constructor (settings: Settings, numberFormatter: int -> Option<string>,
                 percentageFormatter: real -> Option<string>)
      ensures Valid()
      ensures this.settings == settings
      ensures this.numberFormatter == numberFormatter
      ensures this.percentageFormatter == percentageFormatter
      ensures totalQueries == queriesBlocked == percentBlocked == domainsOnBlocklist == ""
      ensures errorMessage == "" && !active && status == "" && changeStatusButtonTitle == ""
      ensures timer == None && runningTimers == {} && nextTimerId == 0
    {
      this.settings := settings;
      this.numberFormatter := numberFormatter;
      this.percentageFormatter := percentageFormatter;
      totalQueries, queriesBlocked, percentBlocked, domainsOnBlocklist := "", "", "", "";
      errorMessage := "";
      active := false;
      changeStatusButtonTitle, status := "", "";
      timer, runningTimers, nextTimerId := None, {}, 0;
    }

    /** The assignment `active = value` followed by its `didSet` observer. */
    method SetActive(value: bool)
      requires Valid()
      modifies this
      ensures Valid()
      ensures ActiveIs(value)
      ensures CountsUnchanged() && errorMessage == old(errorMessage) && TimersUnchanged()
    {
      active := value;
      changeStatusButtonTitle := if active then ButtonDisable else ButtonEnable;
      status := if active then StatusEnabled else StatusDisabled;
    }

    /** Fetches once now, then schedules a repeating timer; an earlier timer keeps running. */
    method StartPolling(response: Result<Summary, SwiftHoleError>) returns (request: Option<Request>)
      requires Valid()
      modifies this
      ensures Valid()
      ensures Fetched(response, request)
      ensures timer == Some(old(nextTimerId))
      ensures runningTimers == old(runningTimers) + {old(nextTimerId)}
      ensures old(nextTimerId) !in old(runningTimers)
    {
      request := FetchSummaryData(response);
      timer := Some(nextTimerId);
      runningTimers := runningTimers + {nextTimerId};
      nextTimerId := nextTimerId + 1;
    }

    /** One tick of a running timer: a fetch. */
    method TimerFired(id: TimerId, response: Result<Summary, SwiftHoleError>) returns (request: Option<Request>)
      requires Valid()
      requires id in runningTimers
      modifies this
      ensures Valid()
      ensures Fetched(response, request) && TimersUnchanged()
    {
      request := FetchSummaryData(response);
    }

    /** Invalidates the last scheduled timer only. */
    method StopPolling()
      requires Valid()
      modifies this
      ensures Valid()
      ensures timer == old(timer) && nextTimerId == old(nextTimerId)
      ensures runningTimers == if timer.Some? then old(runningTimers) - {timer.value} else old(runningTimers)
      ensures CountsUnchanged() && ActiveUnchanged() && errorMessage == old(errorMessage)
    {
      if timer.Some? {
        runningTimers := runningTimers - {timer.value};
      }
    }

    method ResetErrorMessage()
      requires Valid()
      modifies this
      ensures Valid()
      ensures errorMessage == ""
      ensures CountsUnchanged() && ActiveUnchanged() && TimersUnchanged()
    {
      errorMessage := "";
    }

    /** Asks the Pi-hole to stop blocking; on success `active` becomes false. */
    method DisablePiHole(response: Result<(), SwiftHoleError>) returns (request: Request)
      requires Valid()
      modifies this
      ensures Valid()
      ensures request == Request.DisablePiHole(settings.host, settings.apiToken)
      ensures Toggled(false, response) && TimersUnchanged()
    {
      request := Request.DisablePiHole(settings.host, settings.apiToken);
      match response
      case Success(_) => SetActive(false);
      case Failure(error) => HandleError(error);
    }

    /** Asks the Pi-hole to start blocking; on success `active` becomes true. */
    method EnablePiHole(response: Result<(), SwiftHoleError>) returns (request: Request)
      requires Valid()
      modifies this
      ensures Valid()
      ensures request == Request.EnablePiHole(settings.host, settings.apiToken)
      ensures Toggled(true, response) && TimersUnchanged()
    {
      request := Request.EnablePiHole(settings.host, settings.apiToken);
      match response
      case Success(_) => SetActive(true);
      case Failure(error) => HandleError(error);
    }

    /** Shows the message for `error`; the data and the enabled state stay as they were. */
    method HandleError(error: SwiftHoleError)
      requires Valid()
      modifies this
      ensures Valid()
      ensures AppliedError(error) && TimersUnchanged()
      ensures error.MalformedURL? ==> errorMessage == "Invalid URL"
      ensures error.InvalidDecode? ==> errorMessage == "Can't decode response: " + error.decodeDescription
      ensures error.NoAPITokenProvided? ==> errorMessage == "No API Token Provided"
      ensures error.SessionError? ==> errorMessage == "Session error: " + error.sessionDescription
      ensures error.InvalidResponseCode? ==> errorMessage == "Session error: " + IntToDecimal(error.responseCode)
      ensures error.InvalidResponse? ==> errorMessage == "Invalid Response"
    {
      match error
      case MalformedURL =>
        errorMessage := "Invalid URL";
      case InvalidDecode(description) =>
        errorMessage := "Can't decode response: " + description;
      case NoAPITokenProvided =>
        errorMessage := "No API Token Provided";
      case SessionError(description) =>
        errorMessage := "Session error: " + description;
      case InvalidResponseCode(code) =>
        errorMessage := "Session error: " + IntToDecimal(code);
      case InvalidResponse =>
        errorMessage := "Invalid Response";
    }

    /**
      With no host configured, shows a hint and issues nothing; otherwise
      requests a summary and applies the answer.
     */
    method FetchSummaryData(response: Result<Summary, SwiftHoleError>) returns (request: Option<Request>)
      requires Valid()
      modifies this
      ensures Valid()
      ensures Fetched(response, request) && TimersUnchanged()
    {
      if settings.host == "" {
        errorMessage := NoHostMessage;
        return None;
      }
      request := Some(FetchSummary(settings.host, settings.apiToken));
      match response
      case Success(summary) => UpdateData(summary);
      case Failure(error) => HandleError(error);
    }

    /** Replaces the four figures and sets `active` from the summary's status. */
    method UpdateData(summary: Summary)
      requires Valid()
      modifies this
      ensures Valid()
      ensures AppliedSummary(summary) && TimersUnchanged()
    {
      totalQueries := OrDash(numberFormatter(summary.dnsQueriesToday));
      queriesBlocked := OrDash(numberFormatter(summary.adsBlockedToday));
      percentBlocked := OrDash(percentageFormatter(summary.adsPercentageToday / 100.0));
      domainsOnBlocklist := OrDash(numberFormatter(summary.domainsBeingBlocked));
      SetActive(Lowercased(summary.status) == "enabled");
    }
  }

  /**
    Polling started twice without a stop in between leaves a timer that
    `StopPolling` cannot reach: it keeps firing after the stop.
   */
  method RestartLeavesTimerRunning(settings: Settings, numberFormatter: int -> Option<string>,
                                   percentageFormatter: real -> Option<string>,
                                   first: Result<Summary, SwiftHoleError>,
                                   second: Result<Summary, SwiftHoleError>)
    returns (vm: PiHoleViewModel)
    ensures vm.Valid()
    ensures |vm.runningTimers| == 1 && vm.timer.Some? && vm.timer.value !in vm.runningTimers
  {
    vm := new PiHoleViewModel(settings, numberFormatter, percentageFormatter);
    var _ := vm.StartPolling(first);
    var _ := vm.StartPolling(second);
    vm.StopPolling();
    assert vm.runningTimers == {0};
  }

  /** A successful fetch after a failed one still shows the failure's message. */
  method SuccessKeepsEarlierError(settings: Settings, numberFormatter: int -> Option<string>,
                                  percentageFormatter: real -> Option<string>,
                                  error: SwiftHoleError, summary: Summary)
    returns (vm: PiHoleViewModel)
    requires settings.host != ""
    ensures vm.Valid()
    ensures vm.errorMessage == ErrorMessage(error)
    ensures vm.active <==> IsEnabledStatus(summary.status)
  {
    vm := new PiHoleViewModel(settings, numberFormatter, percentageFormatter);
    var _ := vm.FetchSummaryData(Failure(error));
    var _ := vm.FetchSummaryData(Success(summary));
  }

  /**
    A failed enable request after a fetch that reported "disabled" leaves the
    status label at `StatusDisabled` and shows the error.
   */
  method FailedEnableKeepsStatus(settings: Settings, numberFormatter: int -> Option<string>,
                                 percentageFormatter: real -> Option<string>,
                                 summary: Summary, error: SwiftHoleError)
    returns (vm: PiHoleViewModel, request: Request)
    requires settings.host != "" && summary.status == "disabled"
    ensures vm.Valid()
    ensures request == Request.EnablePiHole(settings.host, settings.apiToken)
    ensures !vm.active && vm.status == StatusDisabled && vm.changeStatusButtonTitle == ButtonEnable
    ensures vm.errorMessage == ErrorMessage(error)
  {
    vm := new PiHoleViewModel(settings, numberFormatter, percentageFormatter);
    var _ := vm.FetchSummaryData(Success(summary));
    assert !IsEnabledStatus(summary.status) by { assert Lowercased(summary.status)[0] == 'd'; }
    request := vm.EnablePiHole(Failure(error));
  }
}
