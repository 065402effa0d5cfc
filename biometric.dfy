/**
 * The biometric verification page: a four-valued state driven by a
 * WebAuthn platform-authenticator ceremony with a simulated fallback scan.
 *
 * The browser APIs are replaced by their outcome (`CeremonyOutcome`), the
 * 3000 ms fallback delay by an explicit `FallbackElapsed` step, and toasts
 * and navigations by an effect log.
 */
module Biometric {
  import opened Effects

  datatype VerifyState = Idle | Scanning | Success | Error

  /**
   * How the credential ceremony of one start ended, as seen by the page:
   * no `PublicKeyCredential` in the browser, no user-verifying platform
   * authenticator, a ceremony that resolved to null, an exception thrown by
   * either platform call, or a created credential.
   */
  datatype CeremonyOutcome = ApiAbsent | Unavailable | NullCredential | Threw | Credential

  const BiometricToast: Toast :=
    Toast("Biometric Verified", "Your identity has been confirmed via biometric authentication.", Plain)
  const FallbackToast: Toast :=
    Toast("Verification Complete", "Fingerprint scan completed successfully.", Plain)

  /** Length of the simulated scan that every non-credential outcome waits for. */
  const FallbackDelayMs: nat := 3000

  // ---------------------------------------------------------------------
  // The credential-creation request (Web Authentication Level 2, section 5.4)
  // ---------------------------------------------------------------------

  type Challenge = c: seq<bv8> | |c| == 32 witness seq(32, _ => 0)

  /** COSE algorithm identifiers: ECDSA with SHA-256, and RSASSA-PKCS1-v1_5 with SHA-256. */
  const ES256: int := -7
  const RS256: int := -257

  datatype CredentialParameter = CredentialParameter(alg: int, kind: string)

  datatype CreationOptions = CreationOptions(
    challenge: seq<bv8>,
    rpName: string,
    rpId: string,
    userId: seq<bv8>,
    userName: string,
    userDisplayName: string,
    pubKeyCredParams: seq<CredentialParameter>,
    authenticatorAttachment: string,
    userVerification: string,
    timeoutMs: nat)

  /**
   * Conditions on a creation request that imply the constraints of Web
   * Authentication Level 2, including its recommended minimum: a challenge
   * of at least 16 bytes (recommended, not required), a user handle of 1 to
   * 64 bytes, a non-empty list of "public-key" parameters (the standard also
   * admits an empty list, with a default), and attachment and
   * user-verification values taken from their enumerations.
   */
  predicate WellFormed(o: CreationOptions) {
    && |o.challenge| >= 16
    && 1 <= |o.userId| <= 64
    && |o.pubKeyCredParams| > 0
    && (forall i :: 0 <= i < |o.pubKeyCredParams| ==> o.pubKeyCredParams[i].kind == "public-key")
    && o.authenticatorAttachment in {"platform", "cross-platform"}
    && o.userVerification in {"required", "preferred", "discouraged"}
  }

  function Algorithms(ps: seq<CredentialParameter>): (algs: seq<int>)
    ensures |algs| == |ps|
    ensures forall i :: 0 <= i < |ps| ==> algs[i] == ps[i].alg
  {
    if ps == [] then [] else [ps[0].alg] + Algorithms(ps[1..])
  }

  /**
   * The request the page passes to `navigator.credentials.create`; the
   * challenge comes from the browser's random source and the relying-party
   * id from the page's host name, so both are parameters.
   */
  function CreationRequest(challenge: Challenge, hostname: string): (o: CreationOptions)
    ensures WellFormed(o)
    ensures o.challenge == challenge && o.rpId == hostname
    ensures |o.userId| == 16
    ensures Algorithms(o.pubKeyCredParams) == [ES256, RS256]
    ensures o.authenticatorAttachment == "platform" && o.userVerification == "required"
    ensures o.timeoutMs == 60000
  {
    CreationOptions(
      challenge,
      "DigiVerify",
      hostname,
      seq(16, _ => 0),
      "citizen@digiverify.in",
      "Citizen",
      [CredentialParameter(ES256, "public-key"), CredentialParameter(RS256, "public-key")],
      "platform",
      "required",
      60000)
  }

  // ---------------------------------------------------------------------
  // The page as a state machine over values
  // ---------------------------------------------------------------------

  /**
   * Everything the page changes: the current state, how many fallback
   * delays are still running, the effect log, and every value ever
   * assigned to the state, starting with the initial one.
   */
  datatype Screen = Screen(
    state: VerifyState,
    pendingFallbacks: nat,
    log: seq<Effect>,
    history: seq<VerifyState>)

  const Initial: Screen := Screen(Idle, 0, [], [Idle])

  /** Things that can happen to the page: a button press, or the fallback timer firing. */
  datatype Action = Start(outcome: CeremonyOutcome) | FallbackElapsed | Reset | GoToDashboard

  function Step(s: Screen, a: Action): Screen {
    match a
    case Start(o) =>
      if o == Credential then
        s.(state := Success, log := s.log + [ShowToast(BiometricToast)],
           history := s.history + [Scanning, Success])
      else
        s.(state := Scanning, pendingFallbacks := s.pendingFallbacks + 1,
           history := s.history + [Scanning])
    case FallbackElapsed =>
      if s.pendingFallbacks == 0 then s
      else
        s.(state := Success, pendingFallbacks := s.pendingFallbacks - 1,
           log := s.log + [ShowToast(FallbackToast)], history := s.history + [Success])
    case Reset =>
      s.(state := Idle, history := s.history + [Idle])
    case GoToDashboard =>
      s.(log := s.log + [Navigate(DashboardPath)])
  }

  function Run(s: Screen, acts: seq<Action>): Screen
    decreases |acts|
  {
    if acts == [] then s else Run(Step(s, acts[0]), acts[1..])
  }

  /** "Start Verification" is rendered in `idle` and `error` only. */
  predicate StartOffered(s: VerifyState) { s == Idle || s == Error }

  /** "Try Again" is rendered in `success` and `error` only. */
  predicate ResetOffered(s: VerifyState) { s == Success || s == Error }

  /** "Go to Dashboard" is rendered in `success` only. */
  predicate DashboardOffered(s: VerifyState) { s == Success }

  /** An action the page can receive in screen `s`: a rendered button, or a running timer. */
  predicate Offered(s: Screen, a: Action) {
    match a
    case Start(_) => StartOffered(s.state)
    case FallbackElapsed => s.pendingFallbacks > 0
    case Reset => ResetOffered(s.state)
    case GoToDashboard => DashboardOffered(s.state)
  }

  predicate OfferedRun(s: Screen, acts: seq<Action>)
    decreases |acts|
  {
    acts == [] || (Offered(s, acts[0]) && OfferedRun(Step(s, acts[0]), acts[1..]))
  }

  function Starts(acts: seq<Action>): nat {
    if acts == [] then 0 else (if acts[0].Start? then 1 else 0) + Starts(acts[1..])
  }

  /** Every `success` ever assigned came straight after a `scanning`. */
  predicate ScanningPrecedesSuccess(h: seq<VerifyState>) {
    forall i :: 0 <= i < |h| && h[i] == Success ==> 0 < i && h[i - 1] == Scanning
  }

  /**
   * What holds of every screen reachable through the rendered buttons. The
   * ceremony is one step here, so `scanning` lasts exactly as long as the
   * fallback delay.
   */
  predicate Consistent(s: Screen) {
    && |s.history| > 0
    && s.history[|s.history| - 1] == s.state
    && ScanningPrecedesSuccess(s.history)
    && s.state != Error
    && s.pendingFallbacks == (if s.state == Scanning then 1 else 0)
  }

  lemma StepConsistent(s: Screen, a: Action)
    requires Consistent(s) && Offered(s, a)
    ensures Consistent(Step(s, a))
  {
  }

  lemma {:induction false} OfferedRunConsistent(s: Screen, acts: seq<Action>)
    requires Consistent(s) && OfferedRun(s, acts)
    ensures Consistent(Run(s, acts))
    decreases |acts|
  {
    if acts != [] {
      StepConsistent(s, acts[0]);
      OfferedRunConsistent(Step(s, acts[0]), acts[1..]);
    }
  }

  /**
   * Through the rendered buttons the page never goes from `idle` (or from
   * anything else) straight to `success`, never starts a second ceremony
   * while one is scanning, and has at most one fallback delay running.
   */
  lemma ButtonsKeepScanningFirst(acts: seq<Action>)
    requires OfferedRun(Initial, acts)
    ensures ScanningPrecedesSuccess(Run(Initial, acts).history)
    ensures Run(Initial, acts).pendingFallbacks <= 1
    ensures Run(Initial, acts).state == Scanning <==> Run(Initial, acts).pendingFallbacks == 1
  {
    OfferedRunConsistent(Initial, acts);
  }

  /** No action ever assigns `error`, so it is unreachable from the initial screen. */
  lemma {:induction false} ErrorNeverAssigned(s: Screen, acts: seq<Action>)
    requires Error !in s.history && s.state != Error
    ensures Error !in Run(s, acts).history && Run(s, acts).state != Error
    decreases |acts|
  {
    if acts != [] {
      ErrorNeverAssigned(Step(s, acts[0]), acts[1..]);
    }
  }

  lemma ErrorUnreachable(acts: seq<Action>)
    ensures Run(Initial, acts).state != Error
    ensures Error !in Run(Initial, acts).history
  {
    ErrorNeverAssigned(Initial, acts);
  }

  /** Only the two verification toasts are ever shown by this page. */
  predicate OnlyVerificationToasts(log: seq<Effect>) {
    forall t :: t in Toasts(log) ==> t == BiometricToast || t == FallbackToast
  }

  /**
   * Each start either shows its toast at once (credential) or leaves one
   * fallback delay running, which shows exactly one toast when it fires.
   * This holds whatever the order of actions.
   */
  lemma {:induction false} ToastPerStart(s: Screen, acts: seq<Action>)
    requires OnlyVerificationToasts(s.log)
    ensures OnlyVerificationToasts(Run(s, acts).log)
    ensures |Toasts(Run(s, acts).log)| + Run(s, acts).pendingFallbacks
         == |Toasts(s.log)| + s.pendingFallbacks + Starts(acts)
    decreases |acts|
  {
    if acts != [] {
      var a := acts[0];
      var s' := Step(s, a);
      match a {
        case Start(o) =>
          if o == Credential { ToastsAppend(s.log, ShowToast(BiometricToast)); }
        case FallbackElapsed =>
          if s.pendingFallbacks > 0 { ToastsAppend(s.log, ShowToast(FallbackToast)); }
        case Reset =>
        case GoToDashboard =>
          ToastsAppend(s.log, Navigate(DashboardPath));
      }
      ToastPerStart(s', acts[1..]);
    }
  }

  /**
   * Once no scan is in flight, the page has shown exactly one toast per
   * start, each with one of the two success titles.
   */
  lemma OneToastPerCompletedStart(acts: seq<Action>)
    requires OfferedRun(Initial, acts)
    requires Run(Initial, acts).state != Scanning
    ensures |Toasts(Run(Initial, acts).log)| == Starts(acts)
    ensures OnlyVerificationToasts(Run(Initial, acts).log)
  {
    OfferedRunConsistent(Initial, acts);
    ToastPerStart(Initial, acts);
  }

  /**
   * One start from a screen that offers it, run to completion: a credential
   * ends in `success` with the biometric toast and no delay; every other
   * outcome ends in `success` with the fallback toast after the delay.
   */
  lemma StartToCompletion(s: Screen, o: CeremonyOutcome)
    requires Consistent(s) && StartOffered(s.state)
    ensures var t := Step(s, Start(o));
            var u := if o == Credential then t else Step(t, FallbackElapsed);
            && t.state == (if o == Credential then Success else Scanning)
            && u.state == Success && u.pendingFallbacks == 0
            && Toasts(u.log) == Toasts(s.log) + [if o == Credential then BiometricToast else FallbackToast]
            && u.history == s.history + [Scanning, Success]
  {
    if o == Credential {
      ToastsAppend(s.log, ShowToast(BiometricToast));
    } else {
      ToastsAppend(s.log, ShowToast(FallbackToast));
    }
  }

  /**
   * Without the button guards the order would not hold: a reset while the
   * fallback delay runs, and the timer then assigns `success` right after `idle`.
   */
  lemma UnguardedResetSkipsScanning()
    ensures var acts := [Start(Threw), Reset, FallbackElapsed];
            && !OfferedRun(Initial, acts)
            && Run(Initial, acts).history == [Idle, Scanning, Idle, Success]
            && !ScanningPrecedesSuccess(Run(Initial, acts).history)
  {
    var acts := [Start(Threw), Reset, FallbackElapsed];
    var h := Run(Initial, acts).history;
    assert h[3] == Success && h[2] != Scanning;
  }

  // ---------------------------------------------------------------------
  // The page itself: one state cell, updated step by step
  // ---------------------------------------------------------------------

  class BiometricVerifyPage {
    var state: VerifyState
    var pendingFallbacks: nat
    var log: seq<Effect>
    ghost var history: seq<VerifyState>

    ghost function Snapshot(): Screen
      reads this
    {
      Screen(state, pendingFallbacks, log, history)
    }

    constructor ()
      ensures Snapshot() == Initial
    {
      state := Idle;
      pendingFallbacks := 0;
      log := [];
      history := [Idle];
    }

    /**
     * `startWebAuthn`: enter `scanning`, then either finish at once on a
     * credential or leave the fallback delay running.
     */
    method StartWebAuthn(outcome: CeremonyOutcome)
      modifies this
      ensures Snapshot() == Step(old(Snapshot()), Start(outcome))
      ensures outcome == Credential ==>
                state == Success && log == old(log) + [ShowToast(BiometricToast)]
                && pendingFallbacks == old(pendingFallbacks)
      ensures outcome != Credential ==>
                state == Scanning && log == old(log)
                && pendingFallbacks == old(pendingFallbacks) + 1
    {
      state := Scanning;
      history := history + [Scanning];
      if outcome == Credential {
        state := Success;
        history := history + [Success];
        log := log + [ShowToast(BiometricToast)];
        return;
      }
      // every other outcome reaches the simulated scan, which finishes in FallbackElapsed
      pendingFallbacks := pendingFallbacks + 1;
    }

    /** The simulated scan's delay has elapsed. */
    method FallbackElapsed()
      requires pendingFallbacks > 0
      modifies this
      ensures Snapshot() == Step(old(Snapshot()), Action.FallbackElapsed)
      ensures state == Success && pendingFallbacks == old(pendingFallbacks) - 1
      ensures log == old(log) + [ShowToast(FallbackToast)]
    {
      pendingFallbacks := pendingFallbacks - 1;
      state := Success;
      history := history + [Success];
      log := log + [ShowToast(FallbackToast)];
    }

    /** `reset`: back to `idle`, whatever the state, with no toast. */
    method Reset()
      modifies this
      ensures Snapshot() == Step(old(Snapshot()), Action.Reset)
      ensures state == Idle && log == old(log) && pendingFallbacks == old(pendingFallbacks)
    {
      state := Idle;
      history := history + [Idle];
    }

    /** The "Go to Dashboard" button. */
    method GoToDashboard()
      modifies this
      ensures Snapshot() == Step(old(Snapshot()), Action.GoToDashboard)
      ensures state == old(state) && log == old(log) + [Navigate(DashboardPath)]
    {
      log := log + [Navigate(DashboardPath)];
    }
  }
}
