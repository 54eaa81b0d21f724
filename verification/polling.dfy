/** The relay's two bounded diagnostic pollers (generation time and error
    bag). Each is a counter and an optional interval handle: a start posts
    one request at once and one on every tick of the interval, until the
    counter reaches `MaxChecks`; then the interval is cleared. Ticks are
    discrete steps; the 500 ms period is not modelled. */
module Polling {
  import opened Js
  import opened Messages

  const MaxChecks: int := 20

  /** `count` is the check counter; `active` says whether an interval
      handle is held. */
  datatype PollState = PollState(count: int, active: bool)

  /** The states a poller can be in: a held interval has fewer than
      `MaxChecks` ticks behind it. */
  predicate Reachable(s: PollState)
  {
    0 <= s.count <= MaxChecks && (s.active ==> s.count < MaxChecks)
  }

  /** A start: ignored while an interval is held; otherwise the counter is
      reset, one request is posted and the interval is set. The boolean says
      whether a request was posted. */
  function StartStep(s: PollState): (r: (PollState, bool))
    ensures s.active ==> r == (s, false)
    ensures !s.active ==> r.0 == PollState(0, true) && r.1
    ensures Reachable(s) ==> Reachable(r.0)
  {
    if s.active then (s, false) else (PollState(0, true), true)
  }

  /** One interval tick: the counter goes up; at `MaxChecks` the interval is
      cleared without a request, below it a request is posted. */
  function TickStep(s: PollState): (r: (PollState, bool))
    requires s.active
    ensures r.0.count == s.count + 1
    ensures r.1 == r.0.active
    ensures r.1 <==> s.count + 1 < MaxChecks
    ensures Reachable(s) ==> Reachable(r.0)
  {
    var count := s.count + 1;
    if count >= MaxChecks then (PollState(count, false), false) else (PollState(count, true), true)
  }

  /** Up to `n` ticks; a cleared interval ticks no more. Returns the final
      state and how many requests the ticks posted. */
  function RunTicks(s: PollState, n: nat): (PollState, nat)
    decreases n
  {
    if n == 0 || !s.active then (s, 0)
    else
      var (next, posted) := TickStep(s);
      var (last, more) := RunTicks(next, n - 1);
      (last, more + if posted then 1 else 0)
  }

  function Min(a: int, b: int): int
  {
    if a <= b then a else b
  }

  /** From a held interval at count c, n ticks bring the counter to
      min(c + n, MaxChecks), keep the interval only below MaxChecks, and
      post one request per tick that stays below it. */
  lemma {:induction false} TicksFrom(c: int, n: nat)
    requires 0 <= c < MaxChecks
    ensures RunTicks(PollState(c, true), n) == (PollState(Min(c + n, MaxChecks), c + n < MaxChecks), Min(n, MaxChecks - 1 - c))
    decreases n
  {
    if n > 0 {
      if c + 1 < MaxChecks {
        TicksFrom(c + 1, n - 1);
      }
    }
  }

  /** A fresh start followed by n ticks posts min(n + 1, MaxChecks)
      requests: MaxChecks in all once the run is over. After MaxChecks
      ticks the interval is cleared, and the next start begins from zero. */
  lemma FreshRunPostsMaxChecks(s: PollState, n: nat)
    requires !s.active
    ensures var (started, first) := StartStep(s);
            var (last, more) := RunTicks(started, n);
            && first
            && (if first then 1 else 0) + more == Min(n + 1, MaxChecks)
            && (n >= MaxChecks ==> last == PollState(MaxChecks, false) && StartStep(last).0 == PollState(0, true))
  {
    TicksFrom(0, n);
  }

  /** A start while an interval is held changes nothing, however many
      ticks have passed. */
  lemma RestartWhileRunningIsIgnored(c: int, n: nat)
    requires 0 <= c < MaxChecks
    requires c + n < MaxChecks
    ensures var (running, _) := RunTicks(PollState(c, true), n);
            StartStep(running) == (running, false)
  {
    TicksFrom(c, n);
  }

  /** One poller of content.js: `request` is the message it posts
      (GET_GENERATE_TIME or GET_ERROR_BAG). */
  class Poller {
    const request: PageMessage
    var count: int
    var active: bool

    ghost predicate Valid()
      reads this
    {
      Reachable(PollState(count, active))
    }

    /** Script start: count 0, no interval. */
    constructor(request: PageMessage)
      ensures Valid() && this.request == request && count == 0 && !active
    {
      this.request := request;
      count := 0;
      active := false;
    }

    method Start() returns (posted: Option<PageMessage>)
      requires Valid()
      modifies this
      ensures Valid()
      ensures (PollState(count, active), posted.Some?) == StartStep(old(PollState(count, active)))
      ensures posted.Some? ==> posted.value == request
    {
      if active {
        return None;
      }
      count := 0;
      posted := Some(request);
      active := true;
    }

    /** The interval callback; it only runs while the interval is held. */
    method Tick() returns (posted: Option<PageMessage>)
      requires Valid() && active
      modifies this
      ensures Valid()
      ensures (PollState(count, active), posted.Some?) == TickStep(old(PollState(count, active)))
      ensures posted.Some? ==> posted.value == request
    {
      count := count + 1;
      if count >= MaxChecks {
        active := false;
        return None;
      }
      posted := Some(request);
    }
  }

  /** `startInsiderChecks`: starts both pollers; returns what they post. */
  method StartInsiderChecks(generateTime: Poller, errorBag: Poller) returns (posted: seq<PageMessage>)
    requires generateTime != errorBag
    requires generateTime.request == GetGenerateTime && errorBag.request == GetErrorBag
    requires generateTime.Valid() && errorBag.Valid()
    modifies generateTime, errorBag
    ensures generateTime.Valid() && errorBag.Valid()
    ensures (PollState(generateTime.count, generateTime.active), !old(generateTime.active))
            == StartStep(old(PollState(generateTime.count, generateTime.active)))
    ensures (PollState(errorBag.count, errorBag.active), !old(errorBag.active))
            == StartStep(old(PollState(errorBag.count, errorBag.active)))
    ensures posted == (if old(generateTime.active) then [] else [GetGenerateTime])
                      + (if old(errorBag.active) then [] else [GetErrorBag])
  {
    var first := generateTime.Start();
    var second := errorBag.Start();
    posted := (if first.Some? then [first.value] else []) + (if second.Some? then [second.value] else []);
  }
}
