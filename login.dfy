/** The login-attempt lockout over the Redis key/value store: a per-email failure counter
    under `login_attempts:<email>` and a lock flag under `account_locked:<email>`. Five
    recorded failures make the next check refuse; a successful login clears both keys. Key
    expiry (15 minutes for both keys) is not modelled. */
module Login {
  import opened Wrappers

  datatype LoginError = AccountLocked

  function AttemptsKey(email: string): string {
    "login_attempts:" + email
  }

  function LockKey(email: string): string {
    "account_locked:" + email
  }

  const MaxAttempts: int := 5

  /** The check refuses exactly when the counter is present and at least five. */
  predicate Refuses(kv: map<string, int>, email: string) {
    AttemptsKey(email) in kv && kv[AttemptsKey(email)] >= MaxAttempts
  }

  /** The store after a check, and its verdict: a refusal sets the lock flag unless it is set. */
  function CheckSpec(kv: map<string, int>, email: string): (r: (map<string, int>, Outcome<LoginError>))
    ensures forall k :: k in kv ==> k in r.0 && r.0[k] == kv[k]
    ensures r.0.Keys <= kv.Keys + {LockKey(email)}
  {
    if Refuses(kv, email) then
      (if LockKey(email) in kv then kv else kv[LockKey(email) := 1], Fail(AccountLocked))
    else (kv, Pass)
  }

  /** `INCR`: a missing counter counts as zero. */
  function RecordSpec(kv: map<string, int>, email: string): map<string, int> {
    kv[AttemptsKey(email) := (if AttemptsKey(email) in kv then kv[AttemptsKey(email)] else 0) + 1]
  }

  function ResetSpec(kv: map<string, int>, email: string): map<string, int> {
    kv - {AttemptsKey(email), LockKey(email)}
  }

  class LoginStore {
    var kv: map<string, int>

    constructor (initial: map<string, int>)
      ensures kv == initial
    {
      kv := initial;
    }

    /** `check_login_attempts`. */
    method CheckLoginAttempts(email: string) returns (r: Outcome<LoginError>)
      modifies this
      ensures (kv, r) == CheckSpec(old(kv), email)
    {
      var key := AttemptsKey(email);
      if key in kv && kv[key] >= MaxAttempts {
        if LockKey(email) !in kv {
          kv := kv[LockKey(email) := 1];
        }
        return Fail(AccountLocked);
      }
      r := Pass;
    }

    /** `record_failed_attempt`. */
    method RecordFailedAttempt(email: string)
      modifies this
      ensures kv == RecordSpec(old(kv), email)
    {
      var key := AttemptsKey(email);
      var current := if key in kv then kv[key] else 0;
      kv := kv[key := current + 1];
    }

    /** `reset_login_attempts`. */
    method ResetLoginAttempts(email: string)
      modifies this
      ensures kv == ResetSpec(old(kv), email)
    {
      kv := kv - {AttemptsKey(email)};
      kv := kv - {LockKey(email)};
    }
  }

  /** The two key families never collide, and each is one key per email. */
  lemma KeysDistinct(e1: string, e2: string)
    ensures AttemptsKey(e1) != LockKey(e2)
    ensures AttemptsKey(e1) == AttemptsKey(e2) ==> e1 == e2
    ensures LockKey(e1) == LockKey(e2) ==> e1 == e2
  {
    assert AttemptsKey(e1)[1] == 'o' && LockKey(e2)[1] == 'c';
    if AttemptsKey(e1) == AttemptsKey(e2) {
      assert e1 == AttemptsKey(e1)[15..] && e2 == AttemptsKey(e2)[15..];
    }
    if LockKey(e1) == LockKey(e2) {
      assert e1 == LockKey(e1)[15..] && e2 == LockKey(e2)[15..];
    }
  }

  /** A check that passes changes nothing; a refusal changes only the lock flag, and only when
      it was absent. Whether the check refuses depends on the counter alone: setting or
      clearing the lock flag never changes the verdict. */
  lemma CheckEffects(kv: map<string, int>, email: string, flag: int)
    ensures CheckSpec(kv, email).1.Pass? <==> !Refuses(kv, email)
    ensures CheckSpec(kv, email).1.Pass? ==> CheckSpec(kv, email).0 == kv
    ensures CheckSpec(kv, email).1.Fail? ==>
      CheckSpec(kv, email).0 - {LockKey(email)} == kv - {LockKey(email)} && LockKey(email) in CheckSpec(kv, email).0 &&
      (LockKey(email) in kv ==> CheckSpec(kv, email).0 == kv)
    ensures CheckSpec(kv[LockKey(email) := flag], email).1 == CheckSpec(kv, email).1
    ensures CheckSpec(kv - {LockKey(email)}, email).1 == CheckSpec(kv, email).1
  {
    KeysDistinct(email, email);
  }

  /** `n` failures recorded in a row. */
  function RecordTimes(kv: map<string, int>, email: string, n: nat): map<string, int> {
    if n == 0 then kv else RecordSpec(RecordTimes(kv, email, n - 1), email)
  }

  /** Each recorded failure adds exactly one to the counter, from zero when it was absent, and
      touches no other key. */
  lemma {:induction false} RecordsCount(kv: map<string, int>, email: string, n: nat)
    requires AttemptsKey(email) !in kv
    ensures AttemptsKey(email) in RecordTimes(kv, email, n) <==> n > 0
    ensures n > 0 ==> RecordTimes(kv, email, n)[AttemptsKey(email)] == n
    ensures RecordTimes(kv, email, n) - {AttemptsKey(email)} == kv - {AttemptsKey(email)}
  {
    if n > 0 {
      RecordsCount(kv, email, n - 1);
    }
  }

  /** From a cleared counter, the check refuses exactly after five or more recorded failures:
      four still pass, the fifth locks. */
  lemma FiveFailuresLock(kv: map<string, int>, email: string, n: nat)
    requires AttemptsKey(email) !in kv
    ensures Refuses(RecordTimes(kv, email, n), email) <==> n >= 5
    ensures CheckSpec(RecordTimes(kv, email, 5), email).1 == Fail(AccountLocked)
    ensures CheckSpec(RecordTimes(kv, email, 4), email).1 == Pass
  {
    RecordsCount(kv, email, n);
    RecordsCount(kv, email, 5);
    RecordsCount(kv, email, 4);
  }

  /** After a reset both keys are gone, so the next check passes and changes nothing; other
      emails' keys are untouched. */
  lemma ResetThenPass(kv: map<string, int>, email: string, other: string)
    requires other != email
    ensures CheckSpec(ResetSpec(kv, email), email) == (ResetSpec(kv, email), Pass)
    ensures AttemptsKey(email) !in ResetSpec(kv, email) && LockKey(email) !in ResetSpec(kv, email)
    ensures Refuses(ResetSpec(kv, email), other) == Refuses(kv, other)
  {
    KeysDistinct(other, email);
    KeysDistinct(email, other);
  }
}
