/** src/io/io.cpp: updatePremium, which counts an account's premium days down by the clock. */
module Premium {
  import opened Words

  const DAY := 86400
  const GRATIS := 65535

  datatype Clock = Clock(premiumDays: U16, lastDay: U32)

  function Updated(a: Clock, now: nat): Clock {
    if a.lastDay > now || now - a.lastDay < DAY then a
    else if 0 < a.premiumDays < GRATIS then
      if a.lastDay == 0 then a.(lastDay := Wrap32(now))
      else
        var days := Wrap32((now - a.lastDay) / DAY);
        if days == 0 then a
        else if a.premiumDays >= days then
          Clock(a.premiumDays - days, Wrap32(now - (now - a.lastDay) % DAY))
        else Clock(0, 0)
    else a.(lastDay := 0)
  }

  class Account {
    var premiumDays: U16
    var lastDay: U32

    function Value(): Clock
      reads this
    {
      Clock(premiumDays, lastDay)
    }

    constructor ()
      ensures Value() == Clock(0, 0)
    {
      premiumDays, lastDay := 0, 0;
    }

    // The account is saved exactly when it has changed, as long as the clock fits 32 bits.
    method UpdatePremium(now: nat) returns (save: bool)
      modifies this
      ensures Value() == Updated(old(Value()), now)
      ensures now < 0x1_0000_0000 ==> (save <==> Value() != old(Value()))
    {
      save := false;
      if lastDay > now || now - lastDay < DAY {
        return;
      }
      if premiumDays > 0 && premiumDays < GRATIS {
        if lastDay == 0 {
          lastDay := Wrap32(now);
          save := true;
        } else {
          var days := Wrap32((now - lastDay) / DAY);
          if days > 0 {
            save := true;
            if premiumDays >= days {
              premiumDays := premiumDays - days;
              lastDay := Wrap32(now - (now - lastDay) % DAY);
            } else {
              premiumDays := 0;
              lastDay := 0;
            }
          }
        }
      } else if lastDay != 0 {
        lastDay := 0;
        save := true;
      }
    }
  }

  // When the last premium day begins to be used up
  function Expiry(a: Clock): nat { a.lastDay + 86400 * a.premiumDays }

  lemma DayRange(x: nat)
    ensures x == 86400 * (x / 86400) + x % 86400 && 0 <= x % 86400 < 86400
  {
  }

  lemma OneQuotient(x: nat, q: nat)
    requires 86400 * q <= x < 86400 * (q + 1)
    ensures x / 86400 == q && x % 86400 == x - 86400 * q
  {
  }

  // Each whole day that has passed since lastDay is one premium day less, as long as there are enough.
  lemma DaysAreCounted(a: Clock, now: nat, days: nat)
    requires now < 0x1_0000_0000 && a.lastDay != 0 && 0 < a.premiumDays < 65535
    requires a.lastDay + 86400 * days <= now < a.lastDay + 86400 * (days + 1)
    ensures Updated(a, now) ==
      if days <= a.premiumDays then Clock(a.premiumDays - days, a.lastDay + 86400 * days) else Clock(0, 0)
  {
    DayRange(now - a.lastDay);
    OneQuotient(now - a.lastDay, days);
  }

  // What a call does to a running clock, told by the expiry: until a day after the expiry, the expiry
  // is kept and less than a day is left to count; then the clock is cleared.
  lemma CountsDown(a: Clock, now: nat)
    requires now < 0x1_0000_0000 && a.lastDay != 0 && 0 < a.premiumDays < 65535
    ensures var r := Updated(a, now);
      && (now < a.lastDay ==> r == a)
      && (a.lastDay <= now < Expiry(a) + 86400 ==> Expiry(r) == Expiry(a) && r.lastDay <= now < r.lastDay + 86400)
      && (now >= Expiry(a) + 86400 ==> r == Clock(0, 0))
  {
    if a.lastDay <= now {
      hide Updated;
      DayRange(now - a.lastDay);
      DaysAreCounted(a, now, (now - a.lastDay) / 86400);
    }
  }

  // Counting starts with the first call after the first day of the clock: no day is used up yet.
  lemma StartsClock(a: Clock, now: nat)
    requires now < 0x1_0000_0000 && a.lastDay == 0 && 0 < a.premiumDays < 65535
    ensures Updated(a, now) == if now < 86400 then a else Clock(a.premiumDays, now)
    ensures now >= 86400 ==> Expiry(Updated(a, now)) == now + 86400 * a.premiumDays
  {
  }

  // The expiry and the time of the call determine the clock.
  lemma OneClock(r: Clock, s: Clock, now: nat)
    requires Expiry(r) == Expiry(s) && r.lastDay <= now < r.lastDay + 86400 && s.lastDay <= now < s.lastDay + 86400
    ensures r == s
  {
  }

  // lastDay + 86400 * premiumDays does not change until the premium runs out.
  lemma ExpiryIsKept(a: Clock, now: nat)
    requires now < 0x1_0000_0000 && a.lastDay != 0 && 0 < a.premiumDays < 65535
    ensures Updated(a, now).premiumDays > 0 ==> Expiry(Updated(a, now)) == Expiry(a)
    ensures Updated(a, now) == Clock(0, 0) <==> now >= Expiry(a) + 86400
  {
    hide Updated;
    CountsDown(a, now);
  }

  lemma Cleared(a: Clock, now: nat)
    requires a.premiumDays == 0 || a.premiumDays == 65535
    ensures Updated(a, now) == if a.lastDay <= now && now - a.lastDay >= 86400 then a.(lastDay := 0) else a
  {
  }

  // A call may be left out when another follows: with lastDay set, always; without, exactly when the
  // account has no counted premium, the first call came on the first day of the clock, or both calls
  // came at the same time.
  lemma SecondCallDecides(a: Clock, first: nat, second: nat)
    requires first <= second < 0x1_0000_0000
    ensures Updated(Updated(a, first), second) == Updated(a, second) <==>
      (a.lastDay != 0 || a.premiumDays == 0 || a.premiumDays == 65535 || first < 86400 || first == second)
  {
    if a.lastDay != 0 && 0 < a.premiumDays < 65535 {
      Decides(a, first, second);
    } else if 0 < a.premiumDays < 65535 {
      StartsCounting(a, first, second);
    }
  }

  lemma Decides(a: Clock, first: nat, second: nat)
    requires first <= second < 0x1_0000_0000 && a.lastDay != 0 && 0 < a.premiumDays < 65535
    ensures Updated(Updated(a, first), second) == Updated(a, second)
  {
    hide Updated;
    var r := Updated(a, first);
    CountsDown(a, first);
    CountsDown(a, second);
    if a.lastDay <= first < Expiry(a) + 86400 {
      if r.premiumDays > 0 {
        CountsDown(r, second);
        if second < Expiry(a) + 86400 {
          OneClock(Updated(r, second), Updated(a, second), second);
        }
      } else {
        Cleared(r, second);
        if second < Expiry(a) + 86400 {
          OneClock(r, Updated(a, second), second);
        }
      }
    } else if first >= Expiry(a) + 86400 {
      Cleared(r, second);
    }
  }

  lemma StartsCounting(a: Clock, first: nat, second: nat)
    requires first <= second < 0x1_0000_0000 && a.lastDay == 0 && 0 < a.premiumDays < 65535
    ensures Updated(Updated(a, first), second) == Updated(a, second) <==> first < 86400 || first == second
  {
    if first >= 86400 {
      var r := a.(lastDay := first);
      assert Updated(a, first) == r && Updated(a, second) == a.(lastDay := second);
      hide Updated;
      CountsDown(r, second);
      if second < Expiry(r) + 86400 && Updated(r, second) == a.(lastDay := second) {
        assert Expiry(r) == Expiry(a.(lastDay := second));
      }
    }
  }

  // ----- any number of calls -----

  function UpdatedAll(a: Clock, times: seq<nat>): Clock {
    if times == [] then a else Updated(UpdatedAll(a, times[..|times| - 1]), times[|times| - 1])
  }

  predicate Nondecreasing(times: seq<nat>) {
    forall i, j :: 0 <= i < j < |times| ==> times[i] <= times[j]
  }

  // Whenever the calls come, their result is that of one call at the last time.
  lemma {:induction false} OneCallIsEnough(a: Clock, times: seq<nat>)
    requires a.lastDay != 0 && times != [] && Nondecreasing(times) && times[|times| - 1] < 0x1_0000_0000
    ensures UpdatedAll(a, times) == Updated(a, times[|times| - 1])
  {
    hide Updated;
    var less := times[..|times| - 1];
    if less != [] {
      OneCallIsEnough(a, less);
      SecondCallDecides(a, less[|less| - 1], times[|times| - 1]);
    }
  }

  // Calls on the first day of the clock leave an account without lastDay alone.
  lemma {:induction false} FirstDayCalls(a: Clock, times: seq<nat>)
    requires a.lastDay == 0 && forall i :: 0 <= i < |times| ==> times[i] < 86400
    ensures UpdatedAll(a, times) == a
  {
    if times != [] {
      FirstDayCalls(a, times[..|times| - 1]);
    }
  }

  // The first later call starts the clock, and then the last one decides.
  lemma {:induction false} FirstLateCall(a: Clock, times: seq<nat>, k: nat)
    requires a.lastDay == 0 && 0 < a.premiumDays < 65535
    requires k < |times| && Nondecreasing(times) && times[|times| - 1] < 0x1_0000_0000
    requires times[k] >= 86400 && forall i :: 0 <= i < k ==> times[i] < 86400
    ensures UpdatedAll(a, times) == Updated(Updated(a, times[k]), times[|times| - 1])
  {
    var less, last := times[..|times| - 1], times[|times| - 1];
    var r := a.(lastDay := times[k]);
    assert Updated(a, times[k]) == r;
    if k == |times| - 1 {
      FirstDayCalls(a, less);
      StartsCounting(a, last, last);
    } else {
      hide Updated;
      FirstLateCall(a, less, k);
      SecondCallDecides(r, less[|less| - 1], last);
    }
  }

  // Without lastDay but with counted days, any number of calls does what one call at the last time
  // does if and only if all calls after the first day of the clock came at that last time.
  lemma LateCallsTogether(a: Clock, times: seq<nat>)
    requires a.lastDay == 0 && 0 < a.premiumDays < 65535
    requires times != [] && Nondecreasing(times) && times[|times| - 1] < 0x1_0000_0000
    ensures UpdatedAll(a, times) == Updated(a, times[|times| - 1]) <==>
      forall i :: 0 <= i < |times| && times[i] >= 86400 ==> times[i] == times[|times| - 1]
  {
    var last := times[|times| - 1];
    if last < 86400 {
      FirstDayCalls(a, times);
    } else {
      hide Updated, UpdatedAll;
      var k := FirstLate(times, |times| - 1);
      FirstLateCall(a, times, k);
      StartsCounting(a, times[k], last);
    }
  }

  lemma {:induction false} FirstLate(times: seq<nat>, n: nat) returns (k: nat)
    requires n < |times| && times[n] >= 86400
    ensures k < |times| && times[k] >= 86400 && forall i :: 0 <= i < k ==> times[i] < 86400
  {
    if i :| 0 <= i < n && times[i] >= 86400 {
      k := FirstLate(times, i);
    } else {
      k := n;
    }
  }
}
