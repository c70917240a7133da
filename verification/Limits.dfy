/** src/net/connection.cpp: what the two limiters decide, as functions of an address's own history. */
module Limits {
  import opened Words

  // ----- acceptConnection -----

  const WINDOW := 1000
  const TALLY := 10
  const PENALTY := 10000
  // from here on the end of a block would wrap around
  const LAST_TIME := 0x1_0000_0000_0000_0000 - 10000

  type U64 = x: int | 0 <= x < 0x1_0000_0000_0000_0000

  function Wrap64(x: int): U64 { x % 0x1_0000_0000_0000_0000 }

  datatype ConnectBlock = ConnectBlock(count: U32, startTime: U64, blockTime: U64)

  function FirstConnect(now: U64): ConnectBlock { ConnectBlock(1, now, 0) }

  predicate WindowOver(b: ConnectBlock, now: U64) {
    b.blockTime <= now && Wrap64(now - b.startTime) > WINDOW
  }

  // One attempt of an address that is known
  function Connects(b: ConnectBlock, now: U64): (bool, ConnectBlock) {
    var count := Wrap32(b.count + 1);
    if b.blockTime > now then (false, b.(count := count))
    else if !WindowOver(b, now) then (true, b.(count := count))
    else if count > TALLY then (false, ConnectBlock(0, now, Wrap64(now + PENALTY)))
    else (true, ConnectBlock(0, now, 0))
  }

  // The block after the attempts at the given times, and the answer to the last of them
  function Replay(times: seq<U64>): (bool, ConnectBlock)
    requires times != []
  {
    var n := |times| - 1;
    if n == 0 then (true, FirstConnect(times[0])) else Connects(Replay(times[..n]).1, times[n])
  }

  predicate Steady(times: seq<U64>) {
    && (forall i, j :: 0 <= i < j < |times| ==> times[i] <= times[j])
    && (forall i :: 0 <= i < |times| ==> times[i] < LAST_TIME)
  }

  // More than 1000 ms later; and when a block that begins then ends
  predicate LongAfter(from: int, to: int) { to - from > 1000 }

  function EndOf(start: int): int { start + 10000 }

  // The same decision told from the times alone. A window starts with the first attempt, and with
  // every attempt more than 1000 ms after the start of the last window, unless that start put the
  // address under a block that is still running.
  function LastStart(times: seq<U64>): (s: nat)
    requires times != []
    ensures s < |times|
    decreases |times|, 1
  {
    var n := |times| - 1;
    if n == 0 then 0
    else
      var p := LastStart(times[..n]);
      if LongAfter(times[p], times[n]) && !(Blocks(times[..n], p) && times[n] < EndOf(times[p])) then n else p
  }

  // The attempts tallied in the window from p when the window starting at c ends it: those after p,
  // and p itself when it is the very first. The counter has 32 bits.
  function Tallied(p: nat, c: nat): U32 { Wrap32(c - p + if p == 0 then 1 else 0) }

  // The window start c puts the address under a block.
  predicate Blocks(times: seq<U64>, c: nat)
    requires c < |times|
    decreases |times|, 0
  {
    c > 0 && Tallied(LastStart(times[..c]), c) > 10
  }

  predicate StartsAt(times: seq<U64>, c: nat) {
    c < |times| && LastStart(times[..c + 1]) == c
  }

  predicate StartsBlock(times: seq<U64>, c: nat) { StartsAt(times, c) && Blocks(times, c) }

  lemma BlocksPrefix(times: seq<U64>, n: nat, c: nat)
    requires c < n <= |times|
    ensures Blocks(times[..n], c) == Blocks(times, c)
  {
    assert times[..n][..c] == times[..c];
  }

  lemma StartsPrefix(times: seq<U64>, n: nat, c: nat)
    requires c < n <= |times|
    ensures StartsBlock(times[..n], c) == StartsBlock(times, c)
  {
    assert times[..n][..c + 1] == times[..c + 1];
    BlocksPrefix(times, n, c);
  }

  // The last start is a start.
  lemma {:induction false} LastStartStarts(times: seq<U64>)
    requires times != []
    ensures StartsAt(times, LastStart(times))
  {
    var n := |times| - 1;
    assert times[..n + 1] == times;
    if LastStart(times) < n {
      LastStartStarts(times[..n]);
      assert times[..n][..LastStart(times) + 1] == times[..LastStart(times) + 1];
    }
  }

  // The block of an address is what its history says it is.
  predicate Matches(b: ConnectBlock, times: seq<U64>)
    requires times != []
  {
    var s := LastStart(times);
    && b.startTime == times[s]
    && b.blockTime == (if Blocks(times, s) then EndOf(times[s]) else 0)
    && b.count == (if s == |times| - 1 && s > 0 then 0 else Tallied(s, |times| - 1))
  }

  lemma {:induction false} BlockFromHistory(times: seq<U64>)
    requires times != [] && Steady(times)
    ensures Matches(Replay(times).1, times)
  {
    var n := |times| - 1;
    if n > 0 {
      BlockFromHistory(times[..n]);
      BlockStep(Replay(times[..n]).1, times);
    }
  }

  lemma TalliedNext(p: nat, c: nat)
    requires p < c
    ensures Wrap32((if p == c - 1 && p > 0 then 0 else Tallied(p, c - 1)) + 1) == Tallied(p, c)
  {
  }

  // What is left when the clock does not wrap around
  lemma ClockSteps(start: U64, now: U64)
    requires start <= now < LAST_TIME
    ensures Wrap64(now - start) == now - start && Wrap64(EndOf(now)) == EndOf(now)
  {
  }

  lemma LastStartNext(times: seq<U64>, n: nat)
    requires |times| == n + 1 && n > 0
    ensures var p := LastStart(times[..n]);
      LastStart(times) ==
        if LongAfter(times[p], times[n]) && !(Blocks(times, p) && times[n] < EndOf(times[p])) then n else p
  {
    BlocksPrefix(times, n, LastStart(times[..n]));
  }

  // One attempt more: what becomes of a block whose window began at `start`
  lemma BlockAfter(b: ConnectBlock, start: U64, blocked: bool, tally: U32, now: U64)
    requires b.startTime == start && b.blockTime == (if blocked then EndOf(start) else 0)
    requires tally == Wrap32(b.count + 1) && start <= now < LAST_TIME
    ensures var r := Connects(b, now);
      if LongAfter(start, now) && !(blocked && now < EndOf(start)) then
        r == (tally <= 10, ConnectBlock(0, now, if tally > 10 then EndOf(now) else 0))
      else r == (!(blocked && now < EndOf(start)), b.(count := tally))
  {
    ClockSteps(start, now);
    hide Wrap32, Wrap64;
  }

  lemma BlockStep(b: ConnectBlock, times: seq<U64>)
    requires |times| > 1 && Steady(times) && Matches(b, times[..|times| - 1])
    ensures Matches(Connects(b, times[|times| - 1]).1, times)
    ensures var n, s := |times| - 1, LastStart(times);
      !Connects(b, times[n]).0 <==> Blocks(times, s) && times[n] < EndOf(times[s])
  {
    hide LastStart, Blocks, Connects, Tallied, Wrap32;
    var n := |times| - 1;
    var p := LastStart(times[..n]);
    BlocksPrefix(times, n, p);
    LastStartNext(times, n);
    TalliedNext(p, n);
    BlockAfter(b, times[p], Blocks(times, p), Tallied(p, n), times[n]);
    BlocksAt(times, n, p);
  }

  lemma BlocksAt(times: seq<U64>, c: nat, p: nat)
    requires 0 < c < |times| && p == LastStart(times[..c])
    ensures Blocks(times, c) <==> Tallied(p, c) > 10
  {
  }

  predicate UnderBlock(times: seq<U64>, c: nat, now: int) {
    StartsBlock(times, c) && 0 <= now - times[c] < 10000
  }

  ghost predicate Banned(times: seq<U64>, now: int) {
    exists c: nat :: UnderBlock(times, c, now)
  }

  // An attempt is rejected if and only if it comes within the 10000 ms from a window start that
  // began a block; that may be the attempt itself.
  lemma RejectedWhileBanned(times: seq<U64>)
    requires times != [] && Steady(times)
    ensures !Replay(times).0 <==> Banned(times, times[|times| - 1])
  {
    var n, s := |times| - 1, LastStart(times);
    hide LastStart, Blocks, Steady;
    LastStartStarts(times);
    forall c: nat | UnderBlock(times, c, times[n]) ensures c == s {
      OnlyLastBlock(times, c);
    }
    if n > 0 {
      BlockFromHistory(times[..n]);
      BlockStep(Replay(times[..n]).1, times);
      StartIsPast(times, s);
      if !Replay(times).0 {
        assert UnderBlock(times, s, times[n]);
      }
    } else {
      FirstNeverBlocks(times);
    }
  }

  lemma FirstNeverBlocks(times: seq<U64>)
    requires |times| == 1
    ensures LastStart(times) == 0 && !Blocks(times, 0)
  {
  }

  lemma StartIsPast(times: seq<U64>, s: nat)
    requires Steady(times) && s < |times|
    ensures times[s] <= times[|times| - 1]
    ensures |times| > 1 ==> Steady(times[..|times| - 1])
  {
  }

  // A block earlier than the last window's has run out when that window starts.
  lemma {:induction false} OnlyLastBlock(times: seq<U64>, c: nat)
    requires times != [] && Steady(times) && UnderBlock(times, c, times[|times| - 1])
    ensures c == LastStart(times)
  {
    hide LastStart, Blocks;
    var n := |times| - 1;
    if c < n {
      StartsPrefix(times, n, c);
      OnlyLastBlock(times[..n], c);
      LastStartNext(times, n);
    } else {
      assert times[..n + 1] == times;
    }
  }

  // A window longer than 1000 ms with more than 10 tallied attempts comes before every block.
  lemma BlockIsEarned(times: seq<U64>, c: nat)
    requires Steady(times) && StartsBlock(times, c)
    ensures c > 0 && StartsAt(times, LastStart(times[..c]))
    ensures (times[c] as int) - times[LastStart(times[..c])] > 1000
    ensures Tallied(LastStart(times[..c]), c) > 10
  {
    var p := LastStart(times[..c]);
    LastStartStarts(times[..c]);
    assert times[..c][..p + 1] == times[..p + 1];
    assert times[..c + 1][..c] == times[..c];
  }

  // The first attempt after a block starts a window, and renews the block exactly when more than 10
  // attempts were made since it began.
  lemma RenewsBlock(times: seq<U64>, c: nat, d: nat)
    requires Steady(times) && StartsBlock(times, c) && c < d < |times|
    requires forall i :: c < i < d ==> times[i] < EndOf(times[c])
    requires times[d] >= EndOf(times[c])
    ensures StartsAt(times, d) && (StartsBlock(times, d) <==> Tallied(c, d) > 10)
  {
    StartHolds(times, c, d);
    assert times[..d + 1][..d] == times[..d];
  }

  // While a block runs, no window starts.
  lemma {:induction false} StartHolds(times: seq<U64>, c: nat, d: nat)
    requires Steady(times) && StartsBlock(times, c) && c < d <= |times|
    requires forall i :: c < i < d ==> times[i] < EndOf(times[c])
    ensures LastStart(times[..d]) == c
  {
    hide LastStart, Blocks;
    if d > c + 1 {
      StartHolds(times, c, d - 1);
      assert times[..d][..d - 1] == times[..d - 1];
      LastStartNext(times[..d], d - 1);
      BlocksPrefix(times, d, c);
    }
  }

  // ----- addAttempt and isDisabled -----

  // time_t and sums of times, as an int32_t holds them
  function Int32(x: int): (r: int)
    ensures -0x8000_0000 <= r < 0x8000_0000 && (r - x) % 0x1_0000_0000 == 0
  {
    Reduced(x + 0x8000_0000);
    (x + 0x8000_0000) % 0x1_0000_0000 - 0x8000_0000
  }

  lemma Reduced(x: int)
    ensures (x % 0x1_0000_0000 - x) % 0x1_0000_0000 == 0
  {
    var q := x / 0x1_0000_0000;
    assert x % 0x1_0000_0000 - x == -q * 0x1_0000_0000;
  }

  // Milliseconds to seconds; the division of the source truncates towards zero.
  function Seconds(ms: int): int { if ms >= 0 then ms / 1000 else -((-ms) / 1000) }

  // x seconds and one more are at most ms milliseconds; where ms is negative, x seconds are less.
  predicate SoonerThan(x: int, ms: int) { if ms >= 0 then 1000 * (x + 1) <= ms else 1000 * x < ms }

  lemma SecondsMeans(x: int, ms: int)
    ensures x < Seconds(ms) <==> SoonerThan(x, ms)
  {
    if ms >= 0 {
      Thousands(ms);
    } else {
      Thousands(-ms);
    }
  }

  lemma Thousands(ms: nat)
    ensures 1000 * (ms / 1000) <= ms < 1000 * (ms / 1000) + 1000
  {
  }

  // When a retry no longer counts
  function RetryEnd(lastLogin: int, s: Settings): int { Int32(lastLogin + Seconds(Int32(s.retryTimeout))) }

  datatype LoginBlock = LoginBlock(lastLogin: int, lastProtocol: int, loginsAmount: int)

  datatype Settings = Settings(loginTries: nat, retryTimeout: int, loginTimeout: int)

  datatype Attempt = Attempt(protocolId: int, success: bool, now: int)

  function Attempts(b: LoginBlock, a: Attempt, s: Settings): LoginBlock {
    var amount := if b.loginsAmount > s.loginTries then 0 else b.loginsAmount;
    LoginBlock(a.now, a.protocolId,
      if !a.success || a.now < RetryEnd(b.lastLogin, s) then amount + 1 else 0)
  }

  function Logins(h: seq<Attempt>, s: Settings): LoginBlock {
    if h == [] then LoginBlock(0, 0, 0) else Attempts(Logins(h[..|h| - 1], s), h[|h| - 1], s)
  }

  predicate Disabled(b: LoginBlock, protocolId: int, now: int, s: Settings) {
    && s.loginTries != 0 && b.lastProtocol != protocolId && b.loginsAmount > s.loginTries
    && now < b.lastLogin + Seconds(s.loginTimeout)
  }

  // The last attempt of a history counts if it failed or came soon after the one before it.
  predicate Counted(h: seq<Attempt>, s: Settings)
    requires h != []
  {
    var n := |h| - 1;
    !h[n].success || h[n].now < Int32((if n == 0 then 0 else h[n - 1].now) + Seconds(Int32(s.retryTimeout)))
  }

  // How many attempts have counted in a row
  function Streak(h: seq<Attempt>, s: Settings): nat {
    if h == [] || !Counted(h, s) then 0 else Streak(h[..|h| - 1], s) + 1
  }

  // The counter goes round: after n counted attempts in a row it is ((n - 1) mod (T + 1)) + 1.
  lemma {:induction false} CounterGoesRound(h: seq<Attempt>, s: Settings)
    ensures Logins(h, s).loginsAmount ==
      if Streak(h, s) == 0 then 0 else (Streak(h, s) - 1) % (s.loginTries + 1) + 1
    ensures h != [] ==> Logins(h, s).lastLogin == h[|h| - 1].now && Logins(h, s).lastProtocol == h[|h| - 1].protocolId
  {
    if h != [] {
      var less := h[..|h| - 1];
      CounterGoesRound(less, s);
      if Streak(less, s) > 0 {
        NextRemainder(Streak(less, s) - 1, s.loginTries + 1);
      }
    }
  }

  lemma NextRemainder(k: nat, m: nat)
    requires m > 0
    ensures (k + 1) % m == if k % m == m - 1 then 0 else k % m + 1
  {
    var q, r := k / m, k % m;
    assert k == q * m + r;
    if r == m - 1 {
      assert k + 1 == (q + 1) * m + 0;
      DivMod(k + 1, m, q + 1, 0);
    } else {
      DivMod(k + 1, m, q, r + 1);
    }
  }

  lemma ProductAtLeast(d: nat, m: nat)
    requires d >= 1
    ensures d * m >= m
  {
  }

  lemma DivMod(x: nat, m: nat, q: nat, r: nat)
    requires m > 0 && x == q * m + r && r < m
    ensures x % m == r
  {
    var d := x / m - q;
    assert d * m == r - x % m;
    if d >= 1 {
      ProductAtLeast(d, m);
    } else if d <= -1 {
      ProductAtLeast(-d, m);
    }
  }

  // An address is disabled exactly when its counted attempts in a row are a multiple of T + 1, it
  // last used another protocol, and the timeout is not over.
  lemma DisabledWhen(h: seq<Attempt>, protocolId: int, now: int, s: Settings)
    requires h != []
    ensures Disabled(Logins(h, s), protocolId, now, s) <==>
      && s.loginTries != 0 && Streak(h, s) > 0 && Streak(h, s) % (s.loginTries + 1) == 0
      && h[|h| - 1].protocolId != protocolId && SoonerThan(now - h[|h| - 1].now, s.loginTimeout)
    ensures Disabled(Logins(h, s), protocolId, now, s) ==> Logins(h, s).loginsAmount == s.loginTries + 1
  {
    hide Logins, Streak, Seconds;
    CounterGoesRound(h, s);
    SecondsMeans(now - h[|h| - 1].now, s.loginTimeout);
    if Streak(h, s) > 0 {
      NextRemainder(Streak(h, s) - 1, s.loginTries + 1);
    }
  }

  // A client that always uses one protocol id is never disabled.
  lemma OneProtocolNeverDisabled(h: seq<Attempt>, protocolId: int, now: int, s: Settings)
    requires h != [] && forall a :: a in h ==> a.protocolId == protocolId
    ensures !Disabled(Logins(h, s), protocolId, now, s)
  {
    hide Logins, Streak;
    CounterGoesRound(h, s);
  }

  // ----- the manager -----

  lemma ReplayNext(times: seq<U64>, now: U64)
    ensures Replay(times + [now]) == if times == [] then (true, FirstConnect(now)) else Connects(Replay(times).1, now)
  {
    assert (times + [now])[..|times|] == times;
  }

  lemma LoginsNext(h: seq<Attempt>, a: Attempt, s: Settings)
    ensures Logins([], s) == LoginBlock(0, 0, 0) && Logins(h + [a], s) == Attempts(Logins(h, s), a, s)
  {
    assert (h + [a])[..|h|] == h;
  }

  ghost predicate ConnectsOk(blocks: map<nat, ConnectBlock>, histories: map<nat, seq<U64>>) {
    && blocks.Keys == histories.Keys
    && forall ip :: ip in blocks ==> histories[ip] != [] && blocks[ip] == Replay(histories[ip]).1
  }

  ghost predicate LoginsOk(blocks: map<nat, LoginBlock>, histories: map<nat, seq<Attempt>>, s: Settings) {
    && blocks.Keys == histories.Keys
    && forall ip :: ip in blocks ==> histories[ip] != [] && blocks[ip] == Logins(histories[ip], s)
  }

  lemma PutConnects(blocks: map<nat, ConnectBlock>, histories: map<nat, seq<U64>>, ip: nat, times: seq<U64>)
    requires ConnectsOk(blocks, histories) && times != []
    ensures ConnectsOk(blocks[ip := Replay(times).1], histories[ip := times])
  {
    hide Replay;
  }

  lemma PutLogins(blocks: map<nat, LoginBlock>, histories: map<nat, seq<Attempt>>, ip: nat,
                  h: seq<Attempt>, s: Settings)
    requires LoginsOk(blocks, histories, s) && h != []
    ensures LoginsOk(blocks[ip := Logins(h, s)], histories[ip := h], s)
  {
    hide Logins;
  }

  lemma ConnectsAt(blocks: map<nat, ConnectBlock>, histories: map<nat, seq<U64>>, ip: nat)
    requires ConnectsOk(blocks, histories)
    ensures ip in blocks <==> ip in histories
    ensures ip in blocks ==> histories[ip] != [] && blocks[ip] == Replay(histories[ip]).1
  {
  }

  lemma LoginsAt(blocks: map<nat, LoginBlock>, histories: map<nat, seq<Attempt>>, ip: nat, s: Settings)
    requires LoginsOk(blocks, histories, s)
    ensures ip in blocks <==> ip in histories
    ensures ip in blocks ==> histories[ip] != [] && blocks[ip] == Logins(histories[ip], s)
  {
  }

  class ConnectionManager {
    var ipConnectMap: map<nat, ConnectBlock>
    var ipLoginMap: map<nat, LoginBlock>
    const settings: Settings
    // every address's history
    ghost var connects: map<nat, seq<U64>>
    ghost var logins: map<nat, seq<Attempt>>

    ghost predicate Valid()
      reads this
    {
      ConnectsOk(ipConnectMap, connects) && LoginsOk(ipLoginMap, logins, settings)
    }

    ghost function Connected(ip: nat): seq<U64>
      reads this
    {
      if ip in connects then connects[ip] else []
    }

    ghost function Attempted(ip: nat): seq<Attempt>
      reads this
    {
      if ip in logins then logins[ip] else []
    }

    constructor (s: Settings)
      ensures Valid() && settings == s && connects == map[] && logins == map[]
    {
      ipConnectMap, ipLoginMap, settings := map[], map[], s;
      connects, logins := map[], map[];
    }

    method AcceptConnection(clientIp: nat, currentTime: U64) returns (accepted: bool)
      requires Valid()
      modifies this`ipConnectMap, this`connects
      ensures Valid()
      ensures clientIp == 0 ==> !accepted && connects == old(connects)
      ensures clientIp != 0 ==>
        connects == old(connects)[clientIp := old(Connected(clientIp)) + [currentTime]]
        && accepted == Replay(connects[clientIp]).0
    {
      if clientIp == 0 {
        return false;
      }
      hide Replay, Connects, ConnectsOk;
      ConnectsAt(ipConnectMap, connects, clientIp);
      ghost var times := Connected(clientIp) + [currentTime];
      ReplayNext(Connected(clientIp), currentTime);
      PutConnects(ipConnectMap, connects, clientIp, times);
      connects := connects[clientIp := times];
      if clientIp !in ipConnectMap {
        ipConnectMap := ipConnectMap[clientIp := ConnectBlock(1, currentTime, 0)];
        return true;
      }
      var b := ipConnectMap[clientIp];
      accepted, b := Judge(b, currentTime);
      ipConnectMap := ipConnectMap[clientIp := b];
    }

    // acceptConnection() from the increment of the counter on
    static method Judge(it: ConnectBlock, currentTime: U64) returns (accepted: bool, b: ConnectBlock)
      ensures (accepted, b) == Connects(it, currentTime)
    {
      b := it.(count := Wrap32(it.count + 1));
      if b.blockTime > currentTime {
        return false, b;
      }
      accepted := true;
      if Wrap64(currentTime - b.startTime) > WINDOW {
        var tmp := b.count;
        b := ConnectBlock(0, currentTime, 0);
        if tmp > TALLY {
          b := b.(blockTime := Wrap64(currentTime + PENALTY));
          accepted := false;
        }
      }
    }

    method AddAttempt(clientIp: nat, protocolId: int, success: bool, time: int)
      requires Valid()
      modifies this`ipLoginMap, this`logins
      ensures Valid()
      ensures logins ==
        if clientIp == 0 then old(logins)
        else old(logins)[clientIp := old(Attempted(clientIp)) + [Attempt(protocolId, success, Int32(time))]]
    {
      if clientIp == 0 {
        return;
      }
      hide Logins, LoginsOk, Int32, Attempts;
      var currentTime := Int32(time);
      LoginsAt(ipLoginMap, logins, clientIp, settings);
      ghost var h := Attempted(clientIp) + [Attempt(protocolId, success, currentTime)];
      LoginsNext(Attempted(clientIp), Attempt(protocolId, success, currentTime), settings);
      PutLogins(ipLoginMap, logins, clientIp, h, settings);
      logins := logins[clientIp := h];
      var it := LoginBlock(0, 0, 0);
      if clientIp in ipLoginMap {
        it := ipLoginMap[clientIp];
      }
      it := Count(it, protocolId, success, currentTime, settings);
      ipLoginMap := ipLoginMap[clientIp := it];
    }

    // addAttempt() from the test of the counter on
    static method Count(b: LoginBlock, protocolId: int, success: bool, currentTime: int, settings: Settings)
      returns (it: LoginBlock)
      ensures it == Attempts(b, Attempt(protocolId, success, currentTime), settings)
    {
      it := b;
      if it.loginsAmount > settings.loginTries {
        it := it.(loginsAmount := 0);
      }
      if !success || currentTime < Int32(it.lastLogin + Seconds(Int32(settings.retryTimeout))) {
        it := it.(loginsAmount := it.loginsAmount + 1);
      } else {
        it := it.(loginsAmount := 0);
      }
      it := it.(lastLogin := currentTime, lastProtocol := protocolId);
    }

    method IsDisabled(clientIp: nat, protocolId: int, time: int) returns (disabled: bool)
      requires Valid()
      ensures disabled <==>
        clientIp != 0 && Attempted(clientIp) != [] &&
        Disabled(Logins(Attempted(clientIp), settings), protocolId, Int32(time), settings)
    {
      if settings.loginTries == 0 || clientIp == 0 {
        return false;
      }
      if clientIp !in ipLoginMap {
        return false;
      }
      var it := ipLoginMap[clientIp];
      return it.lastProtocol != protocolId && it.loginsAmount > settings.loginTries
        && Int32(time) < it.lastLogin + Seconds(settings.loginTimeout);
    }
  }
}
