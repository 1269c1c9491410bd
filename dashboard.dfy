/**
 * The employee dashboard: the earned-wage lock (a percentage chosen on a slider and
 * then locked for good after confirmation), the locked and withdrawable amounts, and
 * the month's chart, a loop accumulating the daily earnings and the withdrawals.
 */
module Dashboard {
  import opened Wrappers
  import opened JsNumber
  import opened AppContext

  /** The month's earnings as the page fixes them. */
  const EarnedThisMonth: real := 32000.0
  const CurrentDay: int := 16
  const DefaultDailyRate: real := 2000.0
  /** The days of the month the chart shows a withdrawal on, and its amount. */
  const WithdrawDays: seq<int> := [5, 12, 15]
  const MockWithdrawal: real := 5000.0

  /** `user?.dailyRate || 2000` */
  function DailyRate(user: Option<User>): (r: real)
    ensures r != 0.0
    ensures user.Some? && user.value.dailyRate.Some? && user.value.dailyRate.value != 0.0 ==> r == user.value.dailyRate.value
  {
    if user.Some? && user.value.dailyRate.Some? && user.value.dailyRate.value != 0.0 then user.value.dailyRate.value
    else DefaultDailyRate
  }

  /** `user?.walletBalance || 0` */
  function WalletBalance(user: Option<User>): real
  {
    if user.Some? && user.value.walletBalance.Some? then user.value.walletBalance.value else 0.0
  }

  /** `Math.round(earnedThisMonth * (lockPercentage / 100))` */
  function LockedAmount(pct: int): int
  {
    LockedOf(EarnedThisMonth, pct)
  }

  /** `Math.max(0, currentWalletBalance - lockedAmount)` */
  function Withdrawable(wallet: real, locked: int): (r: real)
    ensures r >= 0.0 && r >= wallet - locked as real
  {
    Max(0.0, wallet - locked as real)
  }

  // ---------------------------------------------------------------------------
  // The lock

  /** The component's lock state; the signed-in user lives in the shared store. */
  class LockPanel {
    var lockPercentage: int
    var isLocked: bool
    const app: AppState

    constructor (app: AppState)
      ensures this.app == app && lockPercentage == 0 && !isLocked
    {
      this.app := app;
      lockPercentage := 0;
      isLocked := false;
    }

    /** The effect that copies the user's stored lock settings, where they are present. */
    method SyncFromUser()
      modifies this
      ensures app.user.Some? && app.user.value.lockPercentage.Some? ==> lockPercentage == app.user.value.lockPercentage.value
      ensures !(app.user.Some? && app.user.value.lockPercentage.Some?) ==> lockPercentage == old(lockPercentage)
      ensures app.user.Some? && app.user.value.isLocked.Some? ==> isLocked == app.user.value.isLocked.value
      ensures !(app.user.Some? && app.user.value.isLocked.Some?) ==> isLocked == old(isLocked)
    {
      if app.user.Some? {
        var u := app.user.value;
        if u.lockPercentage.Some? {
          lockPercentage := u.lockPercentage.value;
        }
        if u.isLocked.Some? {
          isLocked := u.isLocked.value;
        }
      }
    }

    /** The slider: ignored while locked; otherwise the new value is taken and written to the user. */
    method HandleLockChange(newVal: int)
      modifies this, app
      ensures isLocked == old(isLocked)
      ensures old(isLocked) ==> lockPercentage == old(lockPercentage) && app.user == old(app.user)
      ensures !old(isLocked) ==> lockPercentage == newVal
      ensures !old(isLocked) && old(app.user).Some? ==> app.user == Some(old(app.user).value.(lockPercentage := Some(newVal)))
      ensures old(app.user).None? ==> app.user == None
      ensures app.employees == old(app.employees) && app.unlockRequests == old(app.unlockRequests)
      ensures app.auditLogs == old(app.auditLogs) && app.notifications == old(app.notifications)
    {
      if isLocked {
        return;
      }
      lockPercentage := newVal;
      if app.user.Some? {
        app.SetUser(Some(app.user.value.(lockPercentage := Some(newVal))));
      }
    }

    /** The lock button: nothing at 0 %; on confirmation, with a user signed in, lock at the chosen percentage. */
    method HandleConfirmLock(confirmed: bool)
      modifies this, app
      ensures lockPercentage == old(lockPercentage)
      ensures isLocked == (old(isLocked) || (old(lockPercentage) != 0 && confirmed && old(app.user).Some?))
      ensures old(lockPercentage) != 0 && confirmed && old(app.user).Some? ==>
        app.user == Some(old(app.user).value.(isLocked := Some(true), lockPercentage := Some(old(lockPercentage))))
      ensures !(old(lockPercentage) != 0 && confirmed && old(app.user).Some?) ==> app.user == old(app.user)
      ensures app.employees == old(app.employees) && app.unlockRequests == old(app.unlockRequests)
      ensures app.auditLogs == old(app.auditLogs) && app.notifications == old(app.notifications)
    {
      if lockPercentage == 0 {
        return;
      }
      if confirmed && app.user.Some? {
        isLocked := true;
        app.SetUser(Some(app.user.value.(isLocked := Some(true), lockPercentage := Some(lockPercentage))));
      }
    }
  }

  // ---------------------------------------------------------------------------
  // The chart

  datatype ChartPoint = ChartPoint(day: int, earned: real, withdrawn: real, locked: int, available: real)

  /** The earnings accumulated by the end of `day`. */
  function EarnedBy(day: nat, rate: real): real
  {
    if day == 0 then 0.0 else EarnedBy(day - 1, rate) + rate
  }

  /** The withdrawals accumulated by the end of `day`. */
  function WithdrawnBy(day: nat): real
  {
    if day == 0 then 0.0 else WithdrawnBy(day - 1) + (if day in WithdrawDays then MockWithdrawal else 0.0)
  }

  /** `Math.round(cumulativeEarned * (lockPercentage / 100))`: the part of the earnings the lock holds. */
  function LockedOf(earned: real, pct: int): int
  {
    Round(earned * (pct as real / 100.0))
  }

  /** The chart's point for a day. */
  function PointAt(day: nat, rate: real, pct: int): (p: ChartPoint)
    ensures p.day == day && p.available >= 0.0
  {
    var earned := EarnedBy(day, rate);
    var withdrawn := WithdrawnBy(day);
    var locked := LockedOf(earned, pct);
    ChartPoint(day, earned, withdrawn, locked, Max(0.0, earned - withdrawn - locked as real))
  }

  /** The accumulation loop: one point per day from 1 to `currentDay`. */
  method ChartData(dailyRate: real, currentDay: int, lockPercentage: int) returns (data: seq<ChartPoint>)
    ensures |data| == if currentDay < 1 then 0 else currentDay
    ensures forall i :: 0 <= i < |data| ==> data[i] == PointAt(i + 1, dailyRate, lockPercentage)
  {
    data := [];
    var cumulativeEarned := 0.0;
    var cumulativeWithdrawn := 0.0;
    var day := 1;
    while day <= currentDay
      invariant 1 <= day && (currentDay >= 1 ==> day <= currentDay + 1) && (currentDay < 1 ==> day == 1)
      invariant |data| == day - 1
      invariant cumulativeEarned == EarnedBy(day - 1, dailyRate)
      invariant cumulativeWithdrawn == WithdrawnBy(day - 1)
      invariant forall i :: 0 <= i < |data| ==> data[i] == PointAt(i + 1, dailyRate, lockPercentage)
      decreases currentDay - day
    {
      cumulativeEarned := cumulativeEarned + dailyRate;
      var todaysWithdraw := 0.0;
      if day in WithdrawDays {
        todaysWithdraw := MockWithdrawal;
        cumulativeWithdrawn := cumulativeWithdrawn + todaysWithdraw;
      }
      assert cumulativeEarned == EarnedBy(day, dailyRate) && cumulativeWithdrawn == WithdrawnBy(day);
      var currentLocked := LockedOf(cumulativeEarned, lockPercentage);
      var point := ChartPoint(day, cumulativeEarned, cumulativeWithdrawn, currentLocked,
                              Max(0.0, cumulativeEarned - cumulativeWithdrawn - currentLocked as real));
      assert point == PointAt(day, dailyRate, lockPercentage);
      data := data + [point];
      day := day + 1;
    }
  }

  // ---------------------------------------------------------------------------
  // Properties

  /** The locked amount is exactly 320 per percentage point. */
  lemma LockedAmountExact(pct: int)
    ensures LockedAmount(pct) == 320 * pct
  {
    RoundOfInteger(320 * pct);
  }

  /** On the slider's range (0 to 50) the lock holds back between nothing and half the month. */
  lemma LockedAmountRange(pct: int)
    requires 0 <= pct <= 50
    ensures 0 <= LockedAmount(pct) <= 16000
  {
    LockedAmountExact(pct);
  }

  /** The withdrawable amount is never negative, never above a non-negative balance, and exact when covered. */
  lemma WithdrawableBounds(wallet: real, locked: int)
    requires locked >= 0
    ensures Withdrawable(wallet, locked) <= Max(0.0, wallet)
    ensures wallet >= locked as real ==> Withdrawable(wallet, locked) == wallet - locked as real
    ensures Withdrawable(wallet, locked) == 0.0 <==> wallet <= locked as real
  {
  }

  /** Locking more leaves less to withdraw. */
  lemma WithdrawableAntitone(wallet: real, p1: int, p2: int)
    requires p1 <= p2
    ensures Withdrawable(wallet, LockedAmount(p2)) <= Withdrawable(wallet, LockedAmount(p1))
  {
    LockedAmountExact(p1);
    LockedAmountExact(p2);
  }

  /** The earnings at day `d` are `d` times the daily rate. */
  lemma {:induction false} EarnedClosedForm(d: nat, rate: real)
    ensures EarnedBy(d, rate) == d as real * rate
  {
    if d > 0 {
      EarnedClosedForm(d - 1, rate);
      assert (d - 1) as real * rate + rate == d as real * rate;
    }
  }

  /** The number of withdrawal days up to and including `d`. */
  function WithdrawDaysUpTo(d: int): (n: nat)
    ensures n <= |WithdrawDays|
  {
    (if d >= 5 then 1 else 0) + (if d >= 12 then 1 else 0) + (if d >= 15 then 1 else 0)
  }

  /** The withdrawals at day `d` are 5,000 for each withdrawal day up to `d`. */
  lemma {:induction false} WithdrawnClosedForm(d: nat)
    ensures WithdrawnBy(d) == MockWithdrawal * WithdrawDaysUpTo(d) as real
  {
    if d > 0 {
      WithdrawnClosedForm(d - 1);
    }
  }

  /** At a non-negative rate the earnings never decrease from one day to a later one. */
  lemma {:induction false} EarnedMonotone(d1: nat, d2: nat, rate: real)
    requires d1 <= d2 && rate >= 0.0
    ensures EarnedBy(d1, rate) <= EarnedBy(d2, rate)
    decreases d2
  {
    if d1 < d2 {
      EarnedMonotone(d1, d2 - 1, rate);
    }
  }

  /** The withdrawals never decrease. */
  lemma {:induction false} WithdrawnMonotone(d1: nat, d2: nat)
    requires d1 <= d2
    ensures WithdrawnBy(d1) <= WithdrawnBy(d2)
    decreases d2
  {
    if d1 < d2 {
      WithdrawnMonotone(d1, d2 - 1);
    }
  }

  /** Along the chart, earned and withdrawn never decrease (earned at a non-negative rate). */
  lemma ChartMonotone(data: seq<ChartPoint>, rate: real, pct: int, i: nat, j: nat)
    requires forall k :: 0 <= k < |data| ==> data[k] == PointAt(k + 1, rate, pct)
    requires i <= j < |data|
    ensures data[i].withdrawn <= data[j].withdrawn
    ensures rate >= 0.0 ==> data[i].earned <= data[j].earned
    ensures data[i].day < data[j].day || i == j
  {
    WithdrawnMonotone(i + 1, j + 1);
    if rate >= 0.0 {
      EarnedMonotone(i + 1, j + 1, rate);
    }
  }

  /** The default chart's last point: 16 days at 2,000 earn the month's 32,000, three withdrawals took 15,000. */
  lemma LastDefaultPoint(pct: int)
    ensures PointAt(16, DefaultDailyRate, pct).earned == EarnedThisMonth
    ensures PointAt(16, DefaultDailyRate, pct).withdrawn == 15000.0
    ensures PointAt(16, DefaultDailyRate, pct).locked == LockedAmount(pct)
  {
    EarnedClosedForm(16, DefaultDailyRate);
    WithdrawnClosedForm(16);
  }
}
