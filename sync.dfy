/** The poll transition of the dashboard (`loadDevices`) as a pure function of
    the previous state and the outcome of the `list` call, and the two-state
    connectivity machine it implements: Healthy while `error` is null,
    Degraded while it holds the "unreachable" message. */
module Sync {
  import opened Registry

  const Unreachable: string := "server unreachable. Retrying..."
  const Reconnected: string := "server reconnected!"

  /** The part of the dashboard a poll touches, with the toasts shown so far. */
  datatype Snapshot = Snapshot(
    devices: seq<Device>,
    loading: bool,
    error: Option<string>,
    notices: seq<Notice>)

  /** One scheduled or requested poll: whether it is silent, and what `list` returned. */
  datatype Tick = Tick(silent: bool, outcome: Outcome<seq<Device>>)

  predicate Healthy(s: Snapshot)
  {
    s.error.None?
  }

  /** A Degraded dashboard holds the unreachable message and no devices. */
  predicate Consistent(s: Snapshot)
  {
    s.error.Some? ==> s.error == Some(Unreachable) && s.devices == []
  }

  /** The toast that announces entering the given connectivity state. */
  function Announce(healthy: bool): (n: Notice)
  {
    if healthy then SuccessNotice(Reconnected) else ErrorNotice(Unreachable)
  }

  /** One run of `loadDevices`, where `seen` is the value of `error` the running
      closure reads when it decides whether to toast. The state it writes is
      the same whatever `seen` is. The page tests the truthiness of `error`;
      here any `Some` is an error, which agrees because the only message ever
      stored is the non-empty `Unreachable`. */
  function LoadSeen(s: Snapshot, seen: Option<string>, silent: bool, outcome: Outcome<seq<Device>>): (r: Snapshot)
    ensures Consistent(r)
    ensures Healthy(r) <==> outcome.Success?
    ensures outcome.Success? ==> r.devices == outcome.data
    ensures silent ==> r.loading == s.loading
    ensures !silent ==> !r.loading
    ensures r.notices == s.notices + if seen.None? == Healthy(r) then [] else [Announce(Healthy(r))]
  {
    var loading := if silent then s.loading else false;
    match outcome
    case Success(data) =>
      Snapshot(data, loading, None, s.notices + if seen.Some? then [SuccessNotice(Reconnected)] else [])
    case Failure =>
      Snapshot([], loading, Some(Unreachable), s.notices + if seen.None? then [ErrorNotice(Unreachable)] else [])
  }

  /** `loadDevices` reading the current `error`: a toast is shown exactly when
      the connectivity state changes, and it names the state entered. */
  function Load(s: Snapshot, silent: bool, outcome: Outcome<seq<Device>>): (r: Snapshot)
    ensures Consistent(r)
    ensures Healthy(r) <==> outcome.Success?
    ensures outcome.Success? ==> r.devices == outcome.data
    ensures outcome.Failure? ==> r.devices == [] && r.error == Some(Unreachable)
    ensures silent ==> r.loading == s.loading
    ensures !silent ==> !r.loading
    ensures r.notices == s.notices + if Healthy(s) == Healthy(r) then [] else [Announce(Healthy(r))]
  {
    LoadSeen(s, s.error, silent, outcome)
  }

  /** The polls of `ticks` applied in order, the last to land winning. */
  function Run(s: Snapshot, ticks: seq<Tick>): (r: Snapshot)
    decreases |ticks|
  {
    if ticks == [] then s else Run(Load(s, ticks[0].silent, ticks[0].outcome), ticks[1..])
  }

  /** Toasts that alternate between "unreachable" and "reconnected", the first
      one leaving the state `fromHealthy` describes. */
  predicate Alternating(ns: seq<Notice>, fromHealthy: bool)
    decreases |ns|
  {
    ns == [] || (ns[0] == Announce(!fromHealthy) && Alternating(ns[1..], !fromHealthy))
  }

  predicate AllOutcomes(ticks: seq<Tick>, ok: bool)
  {
    forall i :: 0 <= i < |ticks| ==> ticks[i].outcome.Success? == ok
  }

  /** Polling the same list twice in a row changes nothing the first poll did
      not already change, toasts included. */
  lemma LoadIdempotent(s: Snapshot, silent: bool, data: seq<Device>)
    ensures Load(Load(s, silent, Success(data)), silent, Success(data)) == Load(s, silent, Success(data))
  {
  }

  /** Over any sequence of polls the toasts shown earlier stay as they were:
      a run only appends. */
  lemma {:induction false} RunAppends(s: Snapshot, ticks: seq<Tick>)
    ensures var r := Run(s, ticks);
      |s.notices| <= |r.notices| && r.notices == s.notices + r.notices[|s.notices|..]
    decreases |ticks|
  {
    if ticks != [] {
      var s1 := Load(s, ticks[0].silent, ticks[0].outcome);
      assert Run(s, ticks) == Run(s1, ticks[1..]);
      RunAppends(s1, ticks[1..]);
    }
  }

  /** Over any sequence of polls, the toasts a run appends alternate
      "unreachable"/"reconnected", starting with the one that leaves the
      initial state; the last of them announces the state the run ends in,
      and when there is none the run ends in the state it started in. */
  lemma {:induction false} RunAlternates(s: Snapshot, ticks: seq<Tick>)
    ensures var r := Run(s, ticks);
      |s.notices| <= |r.notices| &&
      var added := r.notices[|s.notices|..];
      Alternating(added, Healthy(s)) &&
      (added == [] ==> Healthy(r) == Healthy(s)) &&
      (added != [] ==> added[|added| - 1] == Announce(Healthy(r)))
    decreases |ticks|
  {
    RunAppends(s, ticks);
    if ticks == [] {
      assert s.notices[|s.notices|..] == [];
    } else {
      var s1 := Load(s, ticks[0].silent, ticks[0].outcome);
      var r := Run(s1, ticks[1..]);
      assert Run(s, ticks) == r;
      RunAlternates(s1, ticks[1..]);
      RunAppends(s1, ticks[1..]);
      var tail := r.notices[|s1.notices|..];
      var delta: seq<Notice> := if Healthy(s1) == Healthy(s) then [] else [Announce(Healthy(s1))];
      assert s1.notices == s.notices + delta;
      assert r.notices == s.notices + (delta + tail);
      assert r.notices[|s.notices|..] == delta + tail;
      if delta != [] {
        assert (delta + tail)[1..] == tail;
      }
    }
  }

  /** After at least one poll, the state and the devices are decided by the
      last poll alone: last write wins. */
  lemma {:induction false} RunLastWins(s: Snapshot, ticks: seq<Tick>)
    requires ticks != []
    ensures var r := Run(s, ticks); var last := ticks[|ticks| - 1].outcome;
      Consistent(r) &&
      (Healthy(r) <==> last.Success?) &&
      (last.Success? ==> r.devices == last.data) &&
      (last.Failure? ==> r.devices == [])
    decreases |ticks|
  {
    var s1 := Load(s, ticks[0].silent, ticks[0].outcome);
    assert Run(s, ticks) == Run(s1, ticks[1..]);
    if |ticks| > 1 {
      RunLastWins(s1, ticks[1..]);
      assert ticks[1..][|ticks[1..]| - 1] == ticks[|ticks| - 1];
    } else {
      assert Run(s1, ticks[1..]) == s1;
    }
  }

  /** A run of polls that all fail, or all succeed, toasts at most once: only
      if its first poll changes the connectivity state. So an outage is
      announced once however many polls fail, and a steady healthy run is
      silent. */
  lemma {:induction false} UniformRunToastsOnce(s: Snapshot, ticks: seq<Tick>, ok: bool)
    requires ticks != []
    requires AllOutcomes(ticks, ok)
    ensures var r := Run(s, ticks);
      Healthy(r) == ok &&
      r.notices == s.notices + if Healthy(s) == ok then [] else [Announce(ok)]
    decreases |ticks|
  {
    var s1 := Load(s, ticks[0].silent, ticks[0].outcome);
    assert ticks[0].outcome.Success? == ok;
    assert Run(s, ticks) == Run(s1, ticks[1..]);
    if |ticks| > 1 {
      assert AllOutcomes(ticks[1..], ok) by {
        forall i | 0 <= i < |ticks[1..]| ensures ticks[1..][i].outcome.Success? == ok {
          assert ticks[1..][i] == ticks[i + 1];
        }
      }
      UniformRunToastsOnce(s1, ticks[1..], ok);
      assert s1.notices + [] == s1.notices;
    } else {
      assert Run(s1, ticks[1..]) == s1;
    }
  }

  /** From a healthy state, the polls fail, fail, succeed: the states are
      Degraded, Degraded, Healthy, and exactly one "unreachable" toast and
      one "reconnected" toast are shown, in that order. */
  lemma FailFailSucceed(s: Snapshot, silent: bool, data: seq<Device>)
    requires Healthy(s)
    ensures var s1 := Load(s, silent, Failure);
      var s2 := Load(s1, silent, Failure);
      var s3 := Load(s2, silent, Success(data));
      !Healthy(s1) && !Healthy(s2) && Healthy(s3) && s3.devices == data &&
      s3.notices == s.notices + [ErrorNotice(Unreachable), SuccessNotice(Reconnected)]
  {
  }

  /** The 2 s steady poll as the page registers it: its callback is the
      `loadDevices` of the first render, whose `error` is always null. */
  function StaleTick(s: Snapshot, outcome: Outcome<seq<Device>>): (r: Snapshot)
    ensures r == Load(s, true, outcome).(notices := r.notices)
    ensures r.notices == s.notices + if outcome.Success? then [] else [ErrorNotice(Unreachable)]
  {
    LoadSeen(s, None, true, outcome)
  }

  /** Three failing steady polls as written toast "unreachable" three times,
      not once, and a recovering steady poll never toasts "reconnected". */
  lemma StaleTicksRepeatNotice(s: Snapshot, data: seq<Device>)
    ensures var s3 := StaleTick(StaleTick(StaleTick(s, Failure), Failure), Failure);
      s3.notices == s.notices + [ErrorNotice(Unreachable), ErrorNotice(Unreachable), ErrorNotice(Unreachable)] &&
      StaleTick(s3, Success(data)).notices == s3.notices
  {
  }

  /** The same three failing steady polls reading the current `error` toast once. */
  lemma ThreeFailuresToastOnce(s: Snapshot)
    requires Healthy(s)
    ensures var s3 := Load(Load(Load(s, true, Failure), true, Failure), true, Failure);
      !Healthy(s3) && s3.devices == [] && s3.notices == s.notices + [ErrorNotice(Unreachable)]
  {
  }
}
