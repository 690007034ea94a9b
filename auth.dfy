/** The static authentication wrapper: one shared `AuthState`, a `DoAuth`
    entry point that returns at once when already signed in, waits when a
    sign-in is already under way, and otherwise signs in anonymously with a
    bounded number of retries. The authentication service is an oracle:
    `oracle(i)` is what the `i`-th sign-in call (counting from 0) does. */
module Auth {
  import opened Common

  datatype AuthState = NotAuthenticated | Authenticating | Authenticated | Error | TimeOut

  /** One call to the service's anonymous sign-in: it returns normally,
      after which the player is or is not both signed in and authorized,
      or it throws one of the two exception kinds caught. */
  datatype Attempt = Returned(signedInAndAuthorized: bool) | AuthenticationException | RequestFailedException

  /** The state the `try`/`catch` of one loop iteration leaves. */
  function AttemptState(a: Attempt): (s: AuthState)
    ensures s == Authenticated <==> a == Returned(true)
    ensures s == Error <==> !a.Returned?
    ensures s == Authenticating <==> a == Returned(false)
  {
    match a
    case Returned(ok) => if ok then Authenticated else Authenticating
    case AuthenticationException => Error
    case RequestFailedException => Error
  }

  /** Whether `Authenticating()` keeps waiting in `state`. */
  predicate Waits(state: AuthState)
  {
    state == Authenticating || state == NotAuthenticated
  }

  // ---------------------------------------------------------------------
  // The retry loop as written

  /** The retry loop of `SignInAnonymouslyAsync` as written, from `state`
      with `retries` attempts counted: the final state and the number of
      sign-in calls made. A failed iteration always ends in `TimeOut`, which
      leaves the loop. */
  function LoopAsWritten(state: AuthState, retries: nat, maxRetries: int, oracle: nat -> Attempt): (r: (AuthState, nat))
    decreases maxRetries - retries
  {
    if !(state == Authenticating && retries < maxRetries) then (state, 0)
    else
      var s := AttemptState(oracle(retries));
      if s == Authenticated then (Authenticated, 1)
      else
        var rest := LoopAsWritten(TimeOut, retries + 1, maxRetries, oracle);
        (rest.0, rest.1 + 1)
  }

  /** As written the loop never retries: with `maxRetries <= 0` no call is
      made and the state stays `Authenticating`; otherwise exactly one call
      is made and its outcome decides between `Authenticated` and `TimeOut`,
      an `Error` being overwritten by `TimeOut` at once. */
  lemma AsWrittenSingleAttempt(maxRetries: int, oracle: nat -> Attempt)
    ensures LoopAsWritten(Authenticating, 0, maxRetries, oracle)
         == if maxRetries <= 0 then (Authenticating, 0)
            else if oracle(0) == Returned(true) then (Authenticated, 1)
            else (TimeOut, 1)
  {
    if 0 < maxRetries && oracle(0) != Returned(true) {
      assert LoopAsWritten(TimeOut, 1, maxRetries, oracle) == (TimeOut, 0);
    }
  }

  /** The first call failing and the second succeeding, with the default
      five retries: as written the player ends timed out. */
  lemma AsWrittenGivesUpAfterOneFailure()
    ensures LoopAsWritten(Authenticating, 0, 5, i => if i == 0 then Returned(false) else Returned(true)) == (TimeOut, 1)
    ensures CorrectedSignIn(5, i => if i == 0 then Returned(false) else Returned(true)) == (Authenticated, 2)
  {
    AsWrittenSingleAttempt(5, i => if i == 0 then Returned(false) else Returned(true));
    var oracle: nat -> Attempt := i => if i == 0 then Returned(false) else Returned(true);
    assert Attempts(1, 5, oracle) == (Authenticated, 1);
  }

  // ---------------------------------------------------------------------
  // The retry loop as intended

  /** Sign-in calls from attempt `from` on, at most `maxRetries` in all:
      the first success ends them, and the last failure times out. */
  function Attempts(from: nat, maxRetries: int, oracle: nat -> Attempt): (r: (AuthState, nat))
    requires from < maxRetries
    decreases maxRetries - from
  {
    if oracle(from) == Returned(true) then (Authenticated, 1)
    else if from + 1 >= maxRetries then (TimeOut, 1)
    else
      var rest := Attempts(from + 1, maxRetries, oracle);
      (rest.0, rest.1 + 1)
  }

  /** The intended outcome of a sign-in with `maxRetries` attempts. */
  function CorrectedSignIn(maxRetries: int, oracle: nat -> Attempt): (AuthState, nat)
  {
    if maxRetries <= 0 then (Authenticating, 0) else Attempts(0, maxRetries, oracle)
  }

  /** The attempts end authenticated exactly when one of them succeeds, and
      timed out otherwise; they stop right after the first success and make
      every allowed call when none succeeds. */
  lemma {:induction false} AttemptsOutcome(from: nat, maxRetries: int, oracle: nat -> Attempt)
    requires from < maxRetries
    ensures Attempts(from, maxRetries, oracle).0 == Authenticated
        <==> exists i: nat :: from <= i < maxRetries && oracle(i) == Returned(true)
    ensures Attempts(from, maxRetries, oracle).0 == Authenticated || Attempts(from, maxRetries, oracle).0 == TimeOut
    ensures 1 <= Attempts(from, maxRetries, oracle).1 <= maxRetries - from
    ensures Attempts(from, maxRetries, oracle).0 == TimeOut ==> Attempts(from, maxRetries, oracle).1 == maxRetries - from
    ensures Attempts(from, maxRetries, oracle).0 == Authenticated ==>
      var last := from + Attempts(from, maxRetries, oracle).1 - 1;
      oracle(last) == Returned(true) && forall i: nat :: from <= i < last ==> oracle(i) != Returned(true)
    decreases maxRetries - from
  {
    if oracle(from) != Returned(true) && from + 1 < maxRetries {
      AttemptsOutcome(from + 1, maxRetries, oracle);
      var r := Attempts(from + 1, maxRetries, oracle);
      if r.0 == Authenticated {
        var last := from + 1 + r.1 - 1;
        assert forall i: nat :: from <= i < last ==> oracle(i) != Returned(true) by {
          forall i: nat | from <= i < last ensures oracle(i) != Returned(true) {
            if i > from {
              assert from + 1 <= i < last;
            }
          }
        }
      } else {
        assert forall i: nat :: from <= i < maxRetries ==> oracle(i) != Returned(true) by {
          forall i: nat | from <= i < maxRetries ensures oracle(i) != Returned(true) {
            if i > from {
              assert from + 1 <= i < maxRetries;
            }
          }
        }
      }
    }
  }

  /** A failed attempt before the last one costs one call and leaves the
      outcome to the attempts after it; a failed last attempt times out. */
  lemma AttemptsAfterFailure(from: nat, maxRetries: int, oracle: nat -> Attempt)
    requires from < maxRetries && oracle(from) != Returned(true)
    ensures from + 1 >= maxRetries ==> Attempts(from, maxRetries, oracle) == (TimeOut, 1)
    ensures from + 1 < maxRetries ==>
      Attempts(from, maxRetries, oracle) == (Attempts(from + 1, maxRetries, oracle).0, Attempts(from + 1, maxRetries, oracle).1 + 1)
  {
  }

  // ---------------------------------------------------------------------
  // The wrapper

  class AuthenticationWrapper {
    /** `AuthState`, initially `NotAuthenticated`. */
    var authState: AuthState
    /** Sign-in calls made to the service. */
    var signInCalls: nat

    constructor ()
      ensures authState == NotAuthenticated && signInCalls == 0
    {
      authState := NotAuthenticated;
      signInCalls := 0;
    }

    /** `DoAuth(maxRetries)` (5 by default): `Some` of the state it returns,
        or `None` when it is suspended in `Authenticating()` waiting for a
        sign-in already under way. */
    method DoAuth(maxRetries: int, oracle: nat -> Attempt) returns (r: Option<AuthState>)
      modifies this
      ensures old(authState) == Authenticated ==> r == Some(Authenticated) && unchanged(this)
      ensures old(authState) == Authenticating ==> r == None && unchanged(this)
      ensures old(authState) != Authenticated && old(authState) != Authenticating ==>
        (authState, signInCalls - old(signInCalls)) == CorrectedSignIn(maxRetries, oracle) && r == Some(authState)
    {
      if authState == Authenticated {
        return Some(authState);
      }
      if authState == Authenticating {
        r := PollAuthenticating();
        return;
      }
      SignInAnonymously(maxRetries, oracle);
      r := Some(authState);
    }

    /** One look at the wait loop of `Authenticating()`: `None` while it
        keeps waiting, else the state it returns. */
    method PollAuthenticating() returns (r: Option<AuthState>)
      ensures r == None <==> Waits(authState)
      ensures r != None ==> r == Some(authState)
    {
      if authState == Authenticating || authState == NotAuthenticated {
        return None;
      }
      return Some(authState);
    }

    /** `SignInAnonymouslyAsync(maxRetries)` as written: every failed
        iteration sets `TimeOut`, which ends the loop. */
    method SignInAnonymouslyAsWritten(maxRetries: int, oracle: nat -> Attempt)
      modifies this
      ensures (authState, signInCalls - old(signInCalls)) == LoopAsWritten(Authenticating, 0, maxRetries, oracle)
      ensures signInCalls <= old(signInCalls) + 1
    {
      authState := Authenticating;
      var retries: nat := 0;
      var calls: nat := 0;
      while authState == Authenticating && retries < maxRetries
        invariant signInCalls == old(signInCalls) + calls
        invariant (var rest := LoopAsWritten(authState, retries, maxRetries, oracle);
                   (rest.0, rest.1 + calls)) == LoopAsWritten(Authenticating, 0, maxRetries, oracle)
        decreases maxRetries - retries
      {
        signInCalls := signInCalls + 1;
        calls := calls + 1;
        authState := AttemptState(oracle(retries));
        if authState == Authenticated {
          break;
        }
        retries := retries + 1;
        if authState != Authenticated {
          authState := TimeOut;
        }
      }
      AsWrittenSingleAttempt(maxRetries, oracle);
    }

    /** `SignInAnonymouslyAsync(maxRetries)` as intended: failed attempts
        are retried until one succeeds or `maxRetries` calls were made, and
        only then does the state become `TimeOut`. */
    method SignInAnonymously(maxRetries: int, oracle: nat -> Attempt)
      modifies this
      ensures (authState, signInCalls - old(signInCalls)) == CorrectedSignIn(maxRetries, oracle)
    {
      authState := Authenticating;
      var retries: nat := 0;
      var calls: nat := 0;
      while authState != Authenticated && authState != TimeOut && retries < maxRetries
        invariant signInCalls == old(signInCalls) + calls
        invariant authState == Authenticated || authState == TimeOut ==>
          (authState, calls) == CorrectedSignIn(maxRetries, oracle)
        invariant authState != Authenticated && authState != TimeOut && retries < maxRetries ==>
          (var rest := Attempts(retries, maxRetries, oracle);
           (rest.0, rest.1 + calls)) == CorrectedSignIn(maxRetries, oracle)
        invariant authState != Authenticated && authState != TimeOut && retries >= maxRetries ==>
          maxRetries <= 0 && authState == Authenticating && calls == 0
        decreases maxRetries - retries
      {
        signInCalls := signInCalls + 1;
        calls := calls + 1;
        authState := AttemptState(oracle(retries));
        if authState == Authenticated {
          break;
        }
        AttemptsAfterFailure(retries, maxRetries, oracle);
        retries := retries + 1;
        if retries >= maxRetries {
          authState := TimeOut;
        }
      }
    }
  }

  /** The intended sign-in ends authenticated exactly when one of the first
      `maxRetries` calls succeeds, and otherwise times out after all of them
      (or, with no retries allowed, stays `Authenticating`). */
  lemma CorrectedSignInOutcome(maxRetries: int, oracle: nat -> Attempt)
    ensures CorrectedSignIn(maxRetries, oracle).0 == Authenticated
        <==> exists i: nat :: i < maxRetries && oracle(i) == Returned(true)
    ensures 0 < maxRetries && CorrectedSignIn(maxRetries, oracle).0 != Authenticated ==>
      CorrectedSignIn(maxRetries, oracle) == (TimeOut, maxRetries as nat)
    ensures maxRetries <= 0 ==> CorrectedSignIn(maxRetries, oracle) == (Authenticating, 0)
  {
    if 0 < maxRetries {
      AttemptsOutcome(0, maxRetries, oracle);
    }
  }
}
