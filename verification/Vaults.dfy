/**
 The local vault (internal/credential/localvault/vault.go): unlocking with a lockout after three
 failures, automatic locking after idle time, and entries that exist only under the master password.
 The cipher is ideal: a sealed file opens with the password it was sealed under and no other.
 */
module Vaults {
  import opened Results
  import opened Scopes

  const MAX_UNLOCK_FAILURES := 3
  const LOCKOUT_DURATION := 60 * SECOND
  const DEFAULT_IDLE_TIMEOUT := 15 * MINUTE

  datatype File = Missing | Sealed(password: string, entries: map<string, string>)

  predicate Opens(file: File, master: string) {
    file.Sealed? && file.password == master
  }

  datatype UnlockOutcome = UnlockOutcome(lockoutBegan: bool, lockedUntil: Instant)

  // ----- The times at which passwords were checked -----

  predicate InOrder(checks: seq<Instant>) {
    forall i, j :: 0 <= i <= j < |checks| ==> checks[i] <= checks[j]
  }

  /** After every third failed check there is a pause. */
  predicate Paused(checks: seq<Instant>) {
    forall i :: 0 <= i && i + 1 < |checks| && i % 3 == 2 ==> checks[i + 1] >= checks[i] + LOCKOUT_DURATION
  }

  predicate Within(t: Instant, from: Instant, to: Instant) { from <= t <= to }

  function CountWithin(checks: seq<Instant>, from: Instant, to: Instant): nat {
    if checks == [] then 0
    else CountWithin(checks[..|checks| - 1], from, to) + (if Within(checks[|checks| - 1], from, to) then 1 else 0)
  }

  /** Three checks later, a pause later. */
  lemma ThreeLater(checks: seq<Instant>, i: nat)
    requires InOrder(checks) && Paused(checks) && i + 3 < |checks|
    ensures checks[i + 3] >= checks[i] + LOCKOUT_DURATION
  {
    var k := i + (2 - i % 3);
    assert k % 3 == 2 && checks[k + 1] >= checks[k] + LOCKOUT_DURATION;
    assert checks[i] <= checks[k] && checks[k + 1] <= checks[i + 3];
  }

  lemma {:induction false} ManyLater(checks: seq<Instant>, i: nat, m: nat)
    requires InOrder(checks) && Paused(checks) && i + 3 * m < |checks|
    ensures checks[i + 3 * m] >= checks[i] + m * LOCKOUT_DURATION
  {
    if m > 0 {
      ManyLater(checks, i, m - 1);
      ThreeLater(checks, i + 3 * (m - 1));
    }
  }

  /** In ascending times, those within a span are neighbours. */
  lemma {:induction false} SpanIsContiguous(checks: seq<Instant>, from: Instant, to: Instant) returns (first: nat)
    requires InOrder(checks)
    ensures var c := CountWithin(checks, from, to);
      && first + c <= |checks|
      && forall k :: first <= k < first + c ==> Within(checks[k], from, to)
    ensures CountWithin(checks, from, to) > 0 ==> forall k :: 0 <= k < first ==> checks[k] < from
    ensures CountWithin(checks, from, to) == 0 ==> forall k :: 0 <= k < |checks| ==> !Within(checks[k], from, to)
  {
    first := 0;
    if checks != [] {
      var n := |checks| - 1;
      var front := checks[..n];
      first := SpanIsContiguous(front, from, to);
      var c := CountWithin(front, from, to);
      if Within(checks[n], from, to) {
        if c == 0 {
          first := n;
          forall k | 0 <= k < n ensures checks[k] < from {
            assert !Within(front[k], from, to) && checks[k] <= checks[n];
          }
        } else {
          forall k | first <= k < n ensures Within(checks[k], from, to) {
            assert front[first] == checks[first] && checks[first] <= checks[k] <= checks[n];
          }
          NeighboursFill(front, from, to, first);
        }
      }
    }
  }

  /** If everything from `first` on is within the span and nothing before it is, the count is what is left. */
  lemma {:induction false} NeighboursFill(checks: seq<Instant>, from: Instant, to: Instant, first: nat)
    requires first <= |checks|
    requires forall k :: 0 <= k < first ==> checks[k] < from
    requires forall k :: first <= k < |checks| ==> Within(checks[k], from, to)
    ensures CountWithin(checks, from, to) == |checks| - first
  {
    if checks != [] {
      var n := |checks| - 1;
      if first <= n { NeighboursFill(checks[..n], from, to, first); }
      else { NeighboursFill(checks[..n], from, to, n); }
    }
  }

  /** However the attempts are spread, a span of `d` nanoseconds holds at most three checks for every
      minute it touches. */
  lemma UnlockRateBound(checks: seq<Instant>, from: Instant, d: nat)
    requires InOrder(checks) && Paused(checks)
    ensures CountWithin(checks, from, from + d) <= 3 * (d / LOCKOUT_DURATION + 1)
  {
    var first := SpanIsContiguous(checks, from, from + d);
    var c := CountWithin(checks, from, from + d);
    var m := d / LOCKOUT_DURATION + 1;
    assert m * LOCKOUT_DURATION > d;
    assert c > 0 ==> Within(checks[first], from, from + d);
    assert c > 3 * m ==> Within(checks[first + 3 * m], from, from + d);
    if c > 3 * m { ManyLater(checks, first, m); }
  }

  /** One more check, not before the pause is over. */
  lemma CheckAppended(checks: seq<Instant>, now: Instant)
    requires InOrder(checks) && Paused(checks)
    requires checks != [] ==> now >= checks[|checks| - 1] + (if |checks| % 3 == 0 then LOCKOUT_DURATION else 0)
    ensures InOrder(checks + [now]) && Paused(checks + [now])
  {
  }

  // ----- The vault -----

  class Vault {
    var file: File
    const idleTimeout: int
    /** "" means locked. */
    var master: string
    var lastActive: Instant
    var failures: nat
    var lockedUntil: Instant

    /** When passwords were checked and refused since the last successful unlock. */
    ghost var checks: seq<Instant>
    /** The latest clock reading; the clock is monotone. */
    ghost var seen: Instant

    ghost predicate Valid()
      reads this
    {
      && idleTimeout > 0 && seen > ZERO_TIME
      && failures == |checks| % 3 && failures < MAX_UNLOCK_FAILURES
      && InOrder(checks) && Paused(checks)
      && (checks != [] ==> checks[|checks| - 1] <= seen)
      && lockedUntil == (if |checks| >= 3 then checks[|checks| - 1 - failures] + LOCKOUT_DURATION else ZERO_TIME)
      && (failures > 0 ==> seen >= lockedUntil)
      && lastActive <= seen && (master != "" ==> lastActive > ZERO_TIME)
    }

    constructor (idleTimeout: int, now: Instant)
      requires now > ZERO_TIME
      ensures Valid() && seen == now && file == Missing && master == "" && checks == []
      ensures this.idleTimeout == if idleTimeout <= 0 then DEFAULT_IDLE_TIMEOUT else idleTimeout
    {
      this.idleTimeout := if idleTimeout <= 0 then DEFAULT_IDLE_TIMEOUT else idleTimeout;
      file, master, lastActive, failures, lockedUntil := Missing, "", ZERO_TIME, 0, ZERO_TIME;
      checks, seen := [], now;
    }

    /** Unlocked, and not left alone for too long. */
    predicate ActiveAt(now: Instant)
      reads this
    {
      master != "" && !(lastActive != ZERO_TIME && now - lastActive >= idleTimeout)
    }

    /** Create never overwrites an existing vault. */
    method Create(password: string, now: Instant) returns (r: Result<()>)
      requires Valid() && now >= seen
      modifies this
      ensures Valid() && seen == now
      ensures checks == old(checks) && failures == old(failures) && lockedUntil == old(lockedUntil)
      ensures old(file) != Missing ==> r == Err(Conflict) && file == old(file) && master == old(master)
      ensures old(file) == Missing ==>
        r == Ok(()) && file == Sealed(password, map[]) && master == password && lastActive == now
    {
      seen := now;
      if file != Missing { return Err(Conflict); }
      file := Sealed(password, map[]);
      master, lastActive := password, now;
      return Ok(());
    }

    /** Unlock: nothing is checked before `lockedUntil`; the third failure in a row begins a lockout
        and the count starts anew; success clears both. A wrong password and a missing vault cannot be
        told apart. */
    method Unlock(password: string, now: Instant) returns (outcome: UnlockOutcome, r: Result<()>)
      requires Valid() && now >= seen
      modifies this
      ensures Valid() && seen == now && file == old(file)
      ensures now < old(lockedUntil) ==>
        && r == Err(LockedOut) && outcome == UnlockOutcome(false, old(lockedUntil))
        && checks == old(checks) && failures == old(failures)
        && master == old(master) && lockedUntil == old(lockedUntil)
      ensures now >= old(lockedUntil) && Opens(file, password) ==>
        && r == Ok(()) && outcome == UnlockOutcome(false, ZERO_TIME)
        && checks == [] && failures == 0 && lockedUntil == ZERO_TIME && master == password && lastActive == now
      ensures now >= old(lockedUntil) && !Opens(file, password) ==>
        && checks == old(checks) + [now] && master == ""
        && (if old(failures) == 2
            then r == Err(LockedOut) && outcome == UnlockOutcome(true, now + LOCKOUT_DURATION)
                 && failures == 0 && lockedUntil == now + LOCKOUT_DURATION
            else r == Err(Unauthenticated) && outcome == UnlockOutcome(false, ZERO_TIME)
                 && failures == old(failures) + 1 && lockedUntil == old(lockedUntil))
    {
      if now < lockedUntil {
        seen := now;
        return UnlockOutcome(false, lockedUntil), Err(LockedOut);
      }
      if !Opens(file, password) {
        outcome, r := Refuse(now);
        return;
      }
      seen := now;
      failures, lockedUntil, checks := 0, ZERO_TIME, [];
      master, lastActive := password, now;
      return UnlockOutcome(false, ZERO_TIME), Ok(());
    }

    /** A password was checked and did not open the vault. */
    method Refuse(now: Instant) returns (outcome: UnlockOutcome, r: Result<()>)
      requires Valid() && now >= seen && now >= lockedUntil
      modifies this
      ensures Valid() && seen == now && file == old(file) && checks == old(checks) + [now] && master == ""
      ensures if old(failures) == 2
        then r == Err(LockedOut) && outcome == UnlockOutcome(true, now + LOCKOUT_DURATION)
             && failures == 0 && lockedUntil == now + LOCKOUT_DURATION
        else r == Err(Unauthenticated) && outcome == UnlockOutcome(false, ZERO_TIME)
             && failures == old(failures) + 1 && lockedUntil == old(lockedUntil)
    {
      CheckAppended(checks, now);
      ghost var before := checks;
      seen := now;
      CloseVault();
      checks := checks + [now];
      assert checks[|before|] == now && forall k :: 0 <= k < |before| ==> checks[k] == before[k];
      failures := failures + 1;
      if failures < MAX_UNLOCK_FAILURES { return UnlockOutcome(false, ZERO_TIME), Err(Unauthenticated); }
      failures := 0;
      lockedUntil := now + LOCKOUT_DURATION;
      return UnlockOutcome(true, lockedUntil), Err(LockedOut);
    }

    /** lockLocked */
    method CloseVault()
      modifies this`master, this`lastActive
      ensures master == "" && lastActive == ZERO_TIME
    {
      master, lastActive := "", ZERO_TIME;
    }

    method Lock(now: Instant)
      requires Valid() && now >= seen
      modifies this
      ensures Valid() && seen == now && master == "" && file == old(file)
      ensures checks == old(checks) && failures == old(failures) && lockedUntil == old(lockedUntil)
    {
      seen := now;
      CloseVault();
    }

    /** activeLocked: the test that also locks. */
    method CheckActive(now: Instant) returns (active: bool)
      requires Valid() && now >= seen
      modifies this
      ensures Valid() && seen == now && file == old(file) && active == old(ActiveAt(now))
      ensures checks == old(checks) && failures == old(failures) && lockedUntil == old(lockedUntil)
      ensures if active then master == old(master) && lastActive == old(lastActive) else master == ""
    {
      seen := now;
      if master == "" { return false; }
      if lastActive != ZERO_TIME && now - lastActive >= idleTimeout {
        CloseVault();
        return false;
      }
      return true;
    }

    method IsUnlocked(now: Instant) returns (r: bool)
      requires Valid() && now >= seen
      modifies this
      ensures Valid() && seen == now && file == old(file) && r == old(ActiveAt(now))
      ensures r ==> master == old(master) && lastActive == old(lastActive)
      ensures !r ==> master == ""
      ensures checks == old(checks) && failures == old(failures) && lockedUntil == old(lockedUntil)
    {
      r := CheckActive(now);
    }

    /** Get: locked means locked, whatever is asked for; otherwise the entry as it was stored. */
    method Get(reference: string, now: Instant) returns (r: Result<string>)
      requires Valid() && now >= seen
      modifies this
      ensures Valid() && seen == now && file == old(file)
      ensures checks == old(checks) && failures == old(failures) && lockedUntil == old(lockedUntil)
      ensures !old(ActiveAt(now)) ==> r == Err(VaultLocked) && master == ""
      ensures old(ActiveAt(now)) ==>
        && master == old(master)
        && r == (if !Opens(file, master) then Err(Internal)
                 else if reference in file.entries then Ok(file.entries[reference]) else Err(NotFound))
        && lastActive == (if r.Ok? then now else old(lastActive))
    {
      var active := CheckActive(now);
      if !active { return Err(VaultLocked); }
      if !Opens(file, master) { return Err(Internal); }
      if reference !in file.entries { return Err(NotFound); }
      lastActive := now;
      return Ok(file.entries[reference]);
    }

    method Put(reference: string, value: string, now: Instant) returns (r: Result<()>)
      requires Valid() && now >= seen
      modifies this
      ensures Valid() && seen == now
      ensures checks == old(checks) && failures == old(failures) && lockedUntil == old(lockedUntil)
      ensures r.Ok? <==> reference != "" && old(ActiveAt(now)) && Opens(old(file), old(master))
      ensures reference != "" && !old(ActiveAt(now)) ==> r == Err(VaultLocked) && master == ""
      ensures r.Err? ==> file == old(file)
      ensures r.Ok? ==>
        && file == Sealed(old(master), old(file).entries[reference := value])
        && master == old(master) && lastActive == now
    {
      if reference == "" {
        seen := now;
        return Err(InvalidRequest);
      }
      var active := CheckActive(now);
      if !active { return Err(VaultLocked); }
      if !Opens(file, master) { return Err(Internal); }
      file := Sealed(master, file.entries[reference := value]);
      lastActive := now;
      return Ok(());
    }

    method Delete(reference: string, now: Instant) returns (r: Result<()>)
      requires Valid() && now >= seen
      modifies this
      ensures Valid() && seen == now
      ensures checks == old(checks) && failures == old(failures) && lockedUntil == old(lockedUntil)
      ensures r.Ok? <==> old(ActiveAt(now)) && Opens(old(file), old(master)) && reference in old(file).entries
      ensures !old(ActiveAt(now)) ==> r == Err(VaultLocked) && master == ""
      ensures r.Err? ==> file == old(file)
      ensures r.Ok? ==>
        && file == Sealed(old(master), old(file).entries - {reference})
        && master == old(master) && lastActive == now
    {
      var active := CheckActive(now);
      if !active { return Err(VaultLocked); }
      if !Opens(file, master) { return Err(Internal); }
      if reference !in file.entries { return Err(NotFound); }
      file := Sealed(master, file.entries - {reference});
      lastActive := now;
      return Ok(());
    }

    /** RestoreBackup checks a password outside the lockout, and replaces the file only if it opens
        the backup. */
    method RestoreBackup(backup: File, password: string, now: Instant) returns (r: Result<()>)
      requires Valid() && now >= seen
      modifies this
      ensures Valid() && seen == now
      ensures checks == old(checks) && failures == old(failures) && lockedUntil == old(lockedUntil)
      ensures r.Ok? <==> Opens(backup, password)
      ensures r.Ok? ==> file == backup && master == password && lastActive == now
      ensures r.Err? ==> r == Err(Unauthenticated) && file == old(file) && master == ""
    {
      seen := now;
      if !Opens(backup, password) {
        CloseVault();
        return Err(Unauthenticated);
      }
      file, master, lastActive := backup, password, now;
      return Ok(());
    }

    /** In any reachable vault, any span since the last success holds at most three checks per minute
        it touches. */
    lemma RateBound(from: Instant, d: nat)
      requires Valid()
      ensures CountWithin(checks, from, from + d) <= 3 * (d / LOCKOUT_DURATION + 1)
    {
      UnlockRateBound(checks, from, d);
    }
  }

  /** What was put in comes out, as long as the vault is used before it locks itself. */
  method PutThenGet(v: Vault, reference: string, value: string, now: Instant, later: Instant)
    returns (r: Result<string>)
    requires v.Valid() && v.seen <= now <= later && reference != ""
    requires v.ActiveAt(now) && Opens(v.file, v.master) && later - now < v.idleTimeout
    modifies v
    ensures r == Ok(value)
  {
    var stored := v.Put(reference, value, now);
    r := v.Get(reference, later);
  }
}
