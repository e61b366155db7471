/** `useHealthSync`: when the app starts, and whenever it returns to the
    foreground, today's step count is read and, at most once per app
    session, the user is asked whether to record it. The once-per-session
    flag is module state shared by every use of the hook; the last known app
    state belongs to each use. The health store's answers (availability,
    permission, steps) are parameters. */
module HealthSync {
  import opened Common

  const RecordPath: string := "/(tabs)/record"

  /** React Native's app states. */
  datatype AppState = Active | Background | Inactive | Unknown | Extension

  /** `appState.current.match(/inactive|background/)`. */
  predicate WasAway(s: AppState) {
    s == Inactive || s == Background
  }

  /** What the health store answers during one check: whether it is
      available, whether permission is granted, and today's steps. */
  datatype HealthReading = HealthReading(isAvailable: bool, hasPermission: bool, steps: int)

  /** The session flag after one check, and the step count offered in the
      dialog when one is shown. */
  datatype CheckResult = CheckResult(suggested: bool, offer: Option<int>)

  /** One `checkAndSuggest`: a dialog is shown exactly when nothing was
      suggested yet, the store is available, permission is granted and the
      count is positive; showing it sets the flag. */
  function Check(suggested: bool, h: HealthReading): (r: CheckResult)
    ensures r.offer.Some? <==> !suggested && h.isAvailable && h.hasPermission && h.steps > 0
    ensures r.offer.Some? ==> r.offer.value == h.steps && r.offer.value > 0
    ensures r.suggested <==> suggested || r.offer.Some?
  {
    if !suggested && h.isAvailable && h.hasPermission && h.steps > 0 then CheckResult(true, Some(h.steps))
    else CheckResult(suggested, None)
  }

  /** The number of dialogs a run of checks shows, starting from a flag. */
  function DialogsShown(suggested: bool, readings: seq<HealthReading>): nat
    decreases |readings|
  {
    if readings == [] then 0
    else
      var r := Check(suggested, readings[0]);
      (if r.offer.Some? then 1 else 0) + DialogsShown(r.suggested, readings[1..])
  }

  /** Once a dialog was shown, no check shows another. */
  lemma {:induction false} NoDialogAfterSuggestion(readings: seq<HealthReading>)
    ensures DialogsShown(true, readings) == 0
  {
    if readings != [] {
      NoDialogAfterSuggestion(readings[1..]);
    }
  }

  /** However often the app starts checks in one session, at most one
      dialog is shown. */
  lemma {:induction false} AtMostOneDialogPerSession(readings: seq<HealthReading>)
    ensures DialogsShown(false, readings) <= 1
  {
    if readings != [] {
      var r := Check(false, readings[0]);
      if r.offer.Some? {
        NoDialogAfterSuggestion(readings[1..]);
      } else {
        AtMostOneDialogPerSession(readings[1..]);
      }
    }
  }

  /** The two buttons of the dialog. */
  datatype Answer = Later | RecordNow

  /** The navigation a button triggers: "記録する" opens the record tab
      with the step count as `autoSteps`. */
  datatype Navigation = Navigation(pathname: string, autoSteps: int)

  function Respond(a: Answer, steps: int): (r: Option<Navigation>)
    ensures r.Some? <==> a == RecordNow
    ensures r.Some? ==> r.value == Navigation(RecordPath, steps)
  {
    if a == RecordNow then Some(Navigation(RecordPath, steps)) else None
  }

  /** The module-level `hasSuggestedThisSession` flag. */
  class SessionFlag {
    var suggested: bool

    constructor ()
      ensures !suggested
    {
      suggested := false;
    }
  }

  /** One mounted use of the hook, with its `appState` ref. */
  class HealthSyncHook {
    const session: SessionFlag
    var appState: AppState

    constructor (session: SessionFlag, current: AppState)
      ensures this.session == session && appState == current
    {
      this.session := session;
      appState := current;
    }

    /** `checkAndSuggest`: returns the step count of the dialog it shows. */
    method CheckAndSuggest(h: HealthReading) returns (offer: Option<int>)
      modifies session
      ensures CheckResult(session.suggested, offer) == Check(old(session.suggested), h)
    {
      if !h.isAvailable || session.suggested {
        return None;
      }
      if !h.hasPermission {
        return None;
      }
      if h.steps > 0 {
        session.suggested := true;
        return Some(h.steps);
      }
      return None;
    }

    /** The app-state listener: a check runs only on a return from the
        background or inactive state to active; the new state is recorded
        in every case. */
    method OnAppStateChange(next: AppState, h: HealthReading) returns (offer: Option<int>)
      modifies this, session
      ensures appState == next
      ensures WasAway(old(appState)) && next == Active ==>
                CheckResult(session.suggested, offer) == Check(old(session.suggested), h)
      ensures !(WasAway(old(appState)) && next == Active) ==>
                offer.None? && session.suggested == old(session.suggested)
    {
      offer := None;
      if WasAway(appState) && next == Active {
        offer := CheckAndSuggest(h);
      }
      appState := next;
    }
  }
}
