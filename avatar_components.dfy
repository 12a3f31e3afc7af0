/** The avatar component (components/AvatarComponents.js): one SDK client at
    a time, a status line, a counter of reconnection attempts and at most one
    pending retry timer. Failures of the client go through a bounded retry
    policy: up to MAX_RETRIES reconnections, each 5000 ms after the failure.

    The counter is read fresh at every failure. The SDK client and the timers
    are opaque handles; for each the model keeps the ref the component holds
    and what is still alive in the browser (clients not closed, timers not
    fired or cleared). */
module Avatar {
  import opened Js

  const MAX_RETRIES: nat := 3
  const RETRY_DELAY_MS: nat := 5000

  const INITIALIZING := "Initializing..."
  const STARTING := "Starting..."
  const CONNECTED := "Connected"
  const DISCONNECTED := "Disconnected"
  const MAX_ATTEMPTS_REACHED := "Max reconnection attempts reached. Please refresh the page."
  const NO_API_KEY := "Error: Simli API key not configured"

  // ---------------------------------------------------------------------
  // The retry policy

  /** What handleReconnect decides after a failure, given how many
      reconnections were already made. */
  datatype Decision = GiveUp | RetryAfter(delayMs: nat, attempts: nat)

  /** Give up once MAX_RETRIES reconnections were made; otherwise schedule
      one more, 5000 ms later, and count it. */
  function Decide(attempts: nat): (d: Decision)
    ensures d.GiveUp? <==> attempts >= MAX_RETRIES
    ensures d.RetryAfter? ==> d.delayMs == RETRY_DELAY_MS && d.attempts == attempts + 1
    ensures d.RetryAfter? ==> d.attempts <= MAX_RETRIES
  {
    if attempts >= MAX_RETRIES then GiveUp else RetryAfter(RETRY_DELAY_MS, attempts + 1)
  }

  /** `Reconnecting... Attempt ${k}/${MAX_RETRIES}`. */
  function ReconnectingStatus(k: nat): string
  {
    "Reconnecting... Attempt " + Decimal(k) + "/" + Decimal(MAX_RETRIES)
  }

  /** The status texts of the three reconnections. */
  lemma ReconnectingStatusTexts()
    ensures ReconnectingStatus(1) == "Reconnecting... Attempt 1/3"
    ensures ReconnectingStatus(2) == "Reconnecting... Attempt 2/3"
    ensures ReconnectingStatus(3) == "Reconnecting... Attempt 3/3"
  {
  }

  /** `Error: ${error.message}`: an error without a message shows as
      "undefined". */
  function ErrorStatus(message: Option<string>): string
  {
    "Error: " + (if message.Some? then message.value else "undefined")
  }

  /** The line "Attempt k of 3" under the status, shown only while
      0 < attempts < MAX_RETRIES. */
  function AttemptIndicator(attempts: nat): (line: Option<string>)
    ensures line.Some? <==> 0 < attempts < MAX_RETRIES
    ensures line.Some? ==> line.value == "Attempt " + Decimal(attempts) + " of " + Decimal(MAX_RETRIES)
  {
    if attempts > 0 && attempts < MAX_RETRIES
    then Some("Attempt " + Decimal(attempts) + " of " + Decimal(MAX_RETRIES))
    else None
  }

  /** The two lines the indicator can show. */
  lemma AttemptIndicatorTexts()
    ensures AttemptIndicator(1) == Some("Attempt 1 of 3")
    ensures AttemptIndicator(2) == Some("Attempt 2 of 3")
  {
    assert Decimal(1) == "1" && Decimal(2) == "2" && Decimal(3) == "3";
    assert "Attempt " + "1" + " of " + "3" == "Attempt 1 of 3";
    assert "Attempt " + "2" + " of " + "3" == "Attempt 2 of 3";
  }

  /** The "Retry Connection" button is rendered when the status mentions an
      error. */
  predicate RetryButtonShown(status: string)
  {
    Includes(status, "Error")
  }

  /** The statuses a handler can leave behind: every other text it sets
      ("Disconnected", "Connection failed: ...", "Error: ...") is replaced by
      handleReconnect before the handler returns. */
  predicate SettledStatus(status: string)
  {
    || status == INITIALIZING || status == STARTING || status == CONNECTED
    || status == MAX_ATTEMPTS_REACHED || status == NO_API_KEY
    || status == ReconnectingStatus(1) || status == ReconnectingStatus(2) || status == ReconnectingStatus(3)
  }

  /** No capital E anywhere in the text. */
  predicate NoCapitalE(s: string)
  {
    forall i :: 0 <= i < |s| ==> s[i] != 'E'
  }

  lemma NoCapitalENoError(status: string)
    requires NoCapitalE(status)
    ensures !RetryButtonShown(status)
  {
    forall i | 0 <= i <= |status| - 5
      ensures !OccursAt(status, "Error", i)
    {
      assert status[i..i + 5][0] == status[i];
    }
  }

  lemma NoCapitalEConcat(a: string, b: string)
    requires NoCapitalE(a) && NoCapitalE(b)
    ensures NoCapitalE(a + b)
  {
  }

  lemma MaxAttemptsHasNoCapitalE()
    ensures NoCapitalE(MAX_ATTEMPTS_REACHED)
  {
    assert NoCapitalE("Max reconnection att");
    assert NoCapitalE("empts reached. Pleas");
    assert NoCapitalE("e refresh the page.");
    NoCapitalEConcat("Max reconnection att", "empts reached. Pleas");
    NoCapitalEConcat("Max reconnection attempts reached. Pleas", "e refresh the page.");
    assert MAX_ATTEMPTS_REACHED == "Max reconnection attempts reached. Pleas" + "e refresh the page.";
  }

  lemma ReconnectingHasNoCapitalE(k: nat)
    requires 1 <= k <= MAX_RETRIES
    ensures NoCapitalE(ReconnectingStatus(k))
  {
    assert NoCapitalE("Reconnecting... Attempt ");
    assert NoCapitalE(Decimal(k) + "/" + Decimal(MAX_RETRIES));
    NoCapitalEConcat("Reconnecting... Attempt ", Decimal(k) + "/" + Decimal(MAX_RETRIES));
    assert ReconnectingStatus(k) == "Reconnecting... Attempt " + (Decimal(k) + "/" + Decimal(MAX_RETRIES));
  }

  lemma MissingKeyShowsRetry()
    ensures RetryButtonShown(NO_API_KEY)
  {
    assert NO_API_KEY == "Error" + ": Simli API key not configured";
    StartsWithIncludes("Error", ": Simli API key not configured");
  }

  /** Of the statuses a handler leaves behind only the missing-key one
      mentions an error, so the "Retry Connection" button is never rendered
      after a failed initialization: handleReconnect has already replaced
      the "Error: ..." text. */
  lemma RetryButtonOnlyWithoutApiKey(status: string)
    requires SettledStatus(status)
    ensures RetryButtonShown(status) <==> status == NO_API_KEY
  {
    if status == NO_API_KEY {
      MissingKeyShowsRetry();
    } else {
      if status == MAX_ATTEMPTS_REACHED {
        MaxAttemptsHasNoCapitalE();
      } else if status == ReconnectingStatus(1) {
        ReconnectingHasNoCapitalE(1);
      } else if status == ReconnectingStatus(2) {
        ReconnectingHasNoCapitalE(2);
      } else if status == ReconnectingStatus(3) {
        ReconnectingHasNoCapitalE(3);
      } else {
        assert NoCapitalE(INITIALIZING) && NoCapitalE(STARTING) && NoCapitalE(CONNECTED);
      }
      NoCapitalENoError(status);
    }
  }

  // ---------------------------------------------------------------------
  // The component's state and its transitions

  datatype AvatarState = AvatarState(
    client: Option<Handle>,
    openClients: set<Handle>,
    retryTimeout: Option<Handle>,
    pendingTimers: map<Handle, nat>,
    nextHandle: nat,
    status: string,
    connectionAttempts: nat,
    cleanupRegistered: bool)

  /** The component's invariant: every client still open is the current
      one, every pending timer is the one the ref holds, and the counter
      stays within the policy's bound. */
  predicate Consistent(s: AvatarState)
  {
    && s.openClients <= RefSet(s.client)
    && s.pendingTimers.Keys <= RefSet(s.retryTimeout)
    && s.connectionAttempts <= MAX_RETRIES
  }

  /** Under the invariant there is at most one live client and at most one
      pending retry timer. */
  lemma {:induction false} AtMostOneOfEach(s: AvatarState)
    requires Consistent(s)
    ensures |s.openClients| <= 1
    ensures |s.pendingTimers| <= 1
  {
    SubsetOfRefSet(s.openClients, s.client);
    SubsetOfRefSet(s.pendingTimers.Keys, s.retryTimeout);
    assert |s.pendingTimers| == |s.pendingTimers.Keys|;
  }

  lemma SubsetOfRefSet(a: set<Handle>, ref: Option<Handle>)
    requires a <= RefSet(ref)
    ensures |a| <= 1
  {
    if ref.Some? && a != {} {
      assert a == {ref.value};
    }
  }

  /** clearRetryTimeout: if the ref holds a timer, cancel it and null the
      ref. */
  function ClearRetryTimeout(s: AvatarState): AvatarState
  {
    if s.retryTimeout.Some?
    then s.(pendingTimers := s.pendingTimers - {s.retryTimeout.value}, retryTimeout := None)
    else s
  }

  /** Afterwards no timer is pending; with no timer in the ref nothing
      changes. */
  lemma ClearLeavesNoTimer(s: AvatarState)
    requires Consistent(s)
    ensures Consistent(ClearRetryTimeout(s))
    ensures ClearRetryTimeout(s).pendingTimers == map[]
    ensures ClearRetryTimeout(s).retryTimeout.None?
    ensures s.retryTimeout.None? ==> ClearRetryTimeout(s) == s
  {
    if s.retryTimeout.None? {
      assert s.pendingTimers.Keys == {};
    }
  }

  /** handleReconnect: cancel the pending timer, then give up or schedule
      exactly one re-initialization. */
  function Reconnect(s: AvatarState): AvatarState
  {
    var c := ClearRetryTimeout(s);
    match Decide(s.connectionAttempts)
    case GiveUp => c.(status := MAX_ATTEMPTS_REACHED)
    case RetryAfter(delay, k) =>
      c.(connectionAttempts := k, status := ReconnectingStatus(k),
         pendingTimers := c.pendingTimers[c.nextHandle := delay], retryTimeout := Some(c.nextHandle),
         nextHandle := c.nextHandle + 1)
  }

  /** A failure with MAX_RETRIES reconnections made schedules nothing;
      otherwise it counts one more attempt and leaves exactly one timer,
      fresh, of 5000 ms, in the ref. */
  lemma ReconnectOutcome(s: AvatarState)
    requires Consistent(s)
    ensures Consistent(Reconnect(s))
    ensures s.connectionAttempts >= MAX_RETRIES ==>
      Reconnect(s).pendingTimers == map[] && Reconnect(s).retryTimeout.None?
      && Reconnect(s).status == MAX_ATTEMPTS_REACHED
      && Reconnect(s).connectionAttempts == s.connectionAttempts
    ensures s.connectionAttempts < MAX_RETRIES ==>
      Reconnect(s).connectionAttempts == s.connectionAttempts + 1
      && Reconnect(s).status == ReconnectingStatus(s.connectionAttempts + 1)
      && Reconnect(s).pendingTimers == map[s.nextHandle := RETRY_DELAY_MS]
      && Reconnect(s).retryTimeout == Some(s.nextHandle)
    ensures Reconnect(s).client == s.client && Reconnect(s).openClients == s.openClients
    ensures SettledStatus(Reconnect(s).status)
  {
    ClearLeavesNoTimer(s);
  }

  /** `failures` failures in a row, with no "connected" between them. */
  function Failures(s: AvatarState, failures: nat): AvatarState
    decreases failures
  {
    if failures == 0 then s else Failures(Reconnect(s), failures - 1)
  }

  function Min(a: nat, b: nat): nat
  {
    if a < b then a else b
  }

  /** The policy is bounded: a run of failures makes at most
      MAX_RETRIES - attempts reconnections, one timer each, and once the
      bound is reached the next failure leaves no timer pending. */
  lemma {:induction false} FailuresAreBounded(s: AvatarState, failures: nat)
    requires Consistent(s)
    ensures Consistent(Failures(s, failures))
    ensures Failures(s, failures).connectionAttempts == Min(s.connectionAttempts + failures, MAX_RETRIES)
    ensures Failures(s, failures).nextHandle == s.nextHandle + Min(failures, MAX_RETRIES - s.connectionAttempts)
    ensures failures > MAX_RETRIES - s.connectionAttempts ==>
      Failures(s, failures).pendingTimers == map[] && Failures(s, failures).status == MAX_ATTEMPTS_REACHED
    decreases failures
  {
    if failures > 0 {
      ReconnectOutcome(s);
      FailuresAreBounded(Reconnect(s), failures - 1);
    }
  }

  /** "connected": status, counter reset, pending timer cancelled. */
  function Connected(s: AvatarState): AvatarState
  {
    ClearRetryTimeout(s.(status := CONNECTED, connectionAttempts := 0))
  }

  /** After "connected" no late retry can fire, and the next failure is
      counted as attempt 1. */
  lemma ConnectedResetsPolicy(s: AvatarState)
    requires Consistent(s)
    ensures Consistent(Connected(s))
    ensures Connected(s).pendingTimers == map[] && Connected(s).connectionAttempts == 0
    ensures Reconnect(Connected(s)).connectionAttempts == 1
    ensures Reconnect(Connected(s)).status == ReconnectingStatus(1)
  {
    ClearLeavesNoTimer(s.(status := CONNECTED, connectionAttempts := 0));
  }

  /** The attempt line under the status follows the policy: after a
      failure that schedules reconnection k < MAX_RETRIES it reads
      "Attempt k of 3" for the same k as the status; the last reconnection
      is announced only by the status; giving up and "connected" hide it. */
  lemma IndicatorFollowsPolicy(s: AvatarState)
    requires Consistent(s)
    ensures s.connectionAttempts + 1 < MAX_RETRIES ==>
      var k := s.connectionAttempts + 1;
      && Reconnect(s).status == ReconnectingStatus(k)
      && AttemptIndicator(Reconnect(s).connectionAttempts) == Some("Attempt " + Decimal(k) + " of " + Decimal(MAX_RETRIES))
    ensures s.connectionAttempts == 0 ==>
      AttemptIndicator(Reconnect(s).connectionAttempts) == Some("Attempt 1 of 3")
    ensures s.connectionAttempts == 1 ==>
      AttemptIndicator(Reconnect(s).connectionAttempts) == Some("Attempt 2 of 3")
    ensures s.connectionAttempts + 1 == MAX_RETRIES ==>
      Reconnect(s).status == "Reconnecting... Attempt 3/3"
      && AttemptIndicator(Reconnect(s).connectionAttempts).None?
    ensures s.connectionAttempts >= MAX_RETRIES ==>
      Reconnect(s).status == MAX_ATTEMPTS_REACHED
      && AttemptIndicator(Reconnect(s).connectionAttempts).None?
    ensures AttemptIndicator(Connected(s).connectionAttempts).None?
  {
    ReconnectOutcome(s);
    ReconnectingStatusTexts();
    AttemptIndicatorTexts();
  }

  /** The first part of initializeSimliClient: close and null the current
      client, then construct the next one and make it current. */
  function ReplaceClient(s: AvatarState): AvatarState
  {
    var closed := if s.client.Some? then s.(openClients := s.openClients - {s.client.value}, client := None) else s;
    closed.(client := Some(closed.nextHandle), openClients := closed.openClients + {closed.nextHandle},
            nextHandle := closed.nextHandle + 1, status := INITIALIZING)
  }

  /** initializeSimliClient, given how the awaited Initialize and start
      calls end: a throw of either records the error and goes through the
      retry policy. */
  function Initialize(s: AvatarState, initialize: Outcome, start: Outcome): AvatarState
  {
    var r := ReplaceClient(s);
    if initialize.Threw? then Reconnect(r.(status := ErrorStatus(initialize.message)))
    else if start.Threw? then Reconnect(r.(status := ErrorStatus(start.message)))
    else r.(status := STARTING)
  }

  /** Re-initialization leaves exactly one open client, the new current
      one, whatever was open before. */
  lemma InitializeKeepsOneClient(s: AvatarState, initialize: Outcome, start: Outcome)
    requires Consistent(s)
    ensures Consistent(Initialize(s, initialize, start))
    ensures Initialize(s, initialize, start).client == Some(s.nextHandle)
    ensures Initialize(s, initialize, start).openClients == {s.nextHandle}
    ensures SettledStatus(Initialize(s, initialize, start).status)
  {
    var r := ReplaceClient(s);
    assert r.openClients == {s.nextHandle};
    if initialize.Threw? {
      ReconnectOutcome(r.(status := ErrorStatus(initialize.message)));
    } else if start.Threw? {
      ReconnectOutcome(r.(status := ErrorStatus(start.message)));
    }
  }

  /** The unmount cleanup: cancel the timer and close the client (the ref
      keeps pointing at it). */
  function Unmount(s: AvatarState): AvatarState
  {
    if !s.cleanupRegistered then s
    else
      var c := ClearRetryTimeout(s);
      if c.client.Some? then c.(openClients := c.openClients - {c.client.value}) else c
  }

  /** Once the cleanup has run nothing is left alive. */
  lemma UnmountReleasesAll(s: AvatarState)
    requires Consistent(s) && s.cleanupRegistered
    ensures Consistent(Unmount(s))
    ensures Unmount(s).openClients == {} && Unmount(s).pendingTimers == map[]
  {
    ClearLeavesNoTimer(s);
  }

  // ---------------------------------------------------------------------
  // The component

  class AvatarComponent {
    var client: Option<Handle>          // simliClientRef.current
    var openClients: set<Handle>        // SDK clients constructed and not closed
    var retryTimeout: Option<Handle>    // retryTimeoutRef.current
    var pendingTimers: map<Handle, nat> // retry timers not yet fired or cleared, with their delay
    var nextHandle: nat                 // the next handle the environment gives out
    var status: string
    var connectionAttempts: nat
    var cleanupRegistered: bool         // whether the mount effect returned its cleanup

    ghost function State(): AvatarState
      reads this
    {
      AvatarState(client, openClients, retryTimeout, pendingTimers, nextHandle,
                  status, connectionAttempts, cleanupRegistered)
    }

    /** The invariant between handlers. */
    ghost predicate Valid()
      reads this
    {
      Consistent(State()) && SettledStatus(status)
    }

    constructor ()
      ensures Valid()
      ensures State() == AvatarState(None, {}, None, map[], 0, INITIALIZING, 0, false)
    {
      client, openClients := None, {};
      retryTimeout, pendingTimers := None, map[];
      nextHandle := 0;
      status, connectionAttempts := INITIALIZING, 0;
      cleanupRegistered := false;
    }

    method ClearRetryTimeoutRef()
      requires Consistent(State())
      modifies this
      ensures Consistent(State())
      ensures State() == ClearRetryTimeout(old(State()))
      ensures pendingTimers == map[] && retryTimeout.None?
      ensures old(retryTimeout).None? ==> State() == old(State())
    {
      ClearLeavesNoTimer(State());
      if retryTimeout.Some? {
        pendingTimers := pendingTimers - {retryTimeout.value};
        retryTimeout := None;
      }
    }

    method HandleReconnect()
      requires Consistent(State())
      modifies this
      ensures Valid()
      ensures State() == Reconnect(old(State()))
    {
      ReconnectOutcome(State());
      ClearRetryTimeoutRef();
      match Decide(connectionAttempts)
      case GiveUp =>
        status := MAX_ATTEMPTS_REACHED;
      case RetryAfter(delay, k) =>
        connectionAttempts := k;
        status := ReconnectingStatus(k);
        pendingTimers := pendingTimers[nextHandle := delay];
        retryTimeout := Some(nextHandle);
        nextHandle := nextHandle + 1;
    }

    method InitializeSimliClient(initialize: Outcome, start: Outcome)
      requires Valid()
      modifies this
      ensures Valid()
      ensures State() == Initialize(old(State()), initialize, start)
    {
      InitializeKeepsOneClient(State(), initialize, start);
      ReplaceClientRef();
      if initialize.Threw? {
        status := ErrorStatus(initialize.message);
        HandleReconnect();
      } else if start.Threw? {
        status := ErrorStatus(start.message);
        HandleReconnect();
      } else {
        status := STARTING;
      }
    }

    /** Close and null the current client, then construct a new one. */
    method ReplaceClientRef()
      requires Consistent(State())
      modifies this
      ensures Consistent(State())
      ensures State() == ReplaceClient(old(State()))
    {
      if client.Some? {
        openClients := openClients - {client.value};
        client := None;
      }
      status := INITIALIZING;
      client := Some(nextHandle);
      openClients := openClients + {nextHandle};
      nextHandle := nextHandle + 1;
    }

    /** The client's "connected" event. */
    method OnConnected()
      requires Valid()
      modifies this
      ensures Valid()
      ensures State() == Connected(old(State()))
    {
      status := CONNECTED;
      connectionAttempts := 0;
      ClearRetryTimeoutRef();
    }

    /** The client's "disconnected" event. */
    method OnDisconnected()
      requires Valid()
      modifies this
      ensures Valid()
      ensures State() == Reconnect(old(State()).(status := DISCONNECTED))
    {
      status := DISCONNECTED;
      HandleReconnect();
    }

    /** The client's "failed" event, with the error rendered as text. */
    method OnFailed(error: string)
      requires Valid()
      modifies this
      ensures Valid()
      ensures State() == Reconnect(old(State()).(status := "Connection failed: " + error))
    {
      status := "Connection failed: " + error;
      HandleReconnect();
    }

    /** The pending retry timer fires and re-initializes. The ref keeps the
        spent timer's id until the next clearRetryTimeout. */
    method RetryTimerFires(initialize: Outcome, start: Outcome)
      requires Valid()
      requires pendingTimers != map[]
      modifies this
      ensures Valid()
      ensures State() == Initialize(old(State()).(pendingTimers := map[]), initialize, start)
    {
      pendingTimers := map[];
      InitializeSimliClient(initialize, start);
    }

    /** The "Retry Connection" button, rendered while the status mentions an
        error: reset the counter and re-initialize. */
    method RetryConnection(initialize: Outcome, start: Outcome)
      requires Valid()
      requires RetryButtonShown(status)
      modifies this
      ensures Valid()
      ensures State() == Initialize(old(State()).(connectionAttempts := 0), initialize, start)
    {
      connectionAttempts := 0;
      InitializeSimliClient(initialize, start);
    }

    /** The mount effect: without an API key only the status changes and no
        cleanup is registered. */
    method Mount(apiKey: Option<string>, initialize: Outcome, start: Outcome)
      requires Valid()
      requires !cleanupRegistered
      modifies this
      ensures Valid()
      ensures !Truthy(apiKey) ==> State() == old(State()).(status := NO_API_KEY)
      ensures Truthy(apiKey) ==>
        State() == Initialize(old(State()), initialize, start).(cleanupRegistered := true)
    {
      if !Truthy(apiKey) {
        status := NO_API_KEY;
        return;
      }
      InitializeSimliClient(initialize, start);
      cleanupRegistered := true;
    }

    /** Unmounting runs the cleanup the mount effect registered. */
    method Unmounted()
      requires Valid()
      modifies this
      ensures Valid()
      ensures State() == Unmount(old(State()))
    {
      if !cleanupRegistered {
        return;
      }
      ClearRetryTimeoutRef();
      if client.Some? {
        openClients := openClients - {client.value};
      }
    }
  }
}
