/**
  The tray process (main.js): the notification gate that throttles loudness
  alerts, the notification text defaults, and the device entries of the tray
  menu.

  The gate is the `sendNotification` flag plus the one-shot 10 000 ms timers
  that `getNotificationUpdate` schedules. A timer is modelled by its deadline on
  an integer millisecond clock; `Tick(now)` runs every timer whose deadline has
  come. Every non-test notification schedules its own timer, shown or not, and
  no timer is ever cancelled.
 */
module MainProcess {
  import opened JsValues
  import Renderer

  const COOLDOWN_MS := 10000
  const DEFAULT_TITLE := "Loud Sound Detected"
  const DEFAULT_BODY := "Your voice is too loud!"
  const NO_DEVICE_LABEL := "No Device Found"
  const SAVED_TITLE := "Notification"
  const SAVED_BODY := "notification Setting Saved."

  /** A system notification as it is built: title and body. */
  datatype Notification = Notification(title: string, body: string)

  /** The `sendNotification` flag and the deadlines of the timers that have not run yet, in scheduling order. */
  datatype GateState = GateState(open: bool, pending: seq<int>)

  /** At start-up notifications may be sent and no timer is pending. */
  const InitialGate := GateState(true, [])

  /** The deadlines still in the future at `now`, in their order. */
  function Later(pending: seq<int>, now: int): seq<int> {
    if pending == [] then []
    else
      var last := pending[|pending| - 1];
      Later(pending[..|pending| - 1], now) + (if last > now then [last] else [])
  }

  /** Some deadline has come by `now`. */
  predicate AnyDue(pending: seq<int>, now: int) {
    if pending == [] then false
    else AnyDue(pending[..|pending| - 1], now) || pending[|pending| - 1] <= now
  }

  /** Firing keeps exactly the deadlines after `now`, and never adds one. */
  lemma {:induction false} LaterMembers(pending: seq<int>, now: int)
    ensures |Later(pending, now)| <= |pending|
    ensures forall d :: d in Later(pending, now) <==> d in pending && d > now
  {
    if pending != [] {
      var init := pending[..|pending| - 1];
      LaterMembers(init, now);
      assert pending == init + [pending[|pending| - 1]];
    }
  }

  /** `AnyDue` holds exactly when some pending deadline is at or before `now`. */
  lemma {:induction false} AnyDueMeansSomeDeadline(pending: seq<int>, now: int)
    ensures AnyDue(pending, now) <==> exists i :: 0 <= i < |pending| && pending[i] <= now
  {
    if pending != [] {
      var init := pending[..|pending| - 1];
      AnyDueMeansSomeDeadline(init, now);
      if exists i :: 0 <= i < |pending| && pending[i] <= now {
        var i :| 0 <= i < |pending| && pending[i] <= now;
        if i < |init| {
          assert init[i] == pending[i];
        }
      }
    }
  }

  /** The gate after every timer due by `now` has run: each one that runs reopens it. */
  function Fire(g: GateState, now: int): GateState {
    GateState(g.open || AnyDue(g.pending, now), Later(g.pending, now))
  }

  /** `showNotification` shows the notification: a test one always, another one only while the flag is set. */
  predicate Shown(g: GateState, isTesting: bool) {
    isTesting || g.open
  }

  /** `showNotification`'s effect on the gate: a non-test call clears the flag and schedules a reopening. */
  function AfterOffer(g: GateState, isTesting: bool, now: int): GateState {
    if isTesting then g else GateState(false, g.pending + [now + COOLDOWN_MS])
  }

  /** `title || 'Loud Sound Detected'` and `message || 'Your voice is too loud!'`. */
  function BuildNotification(title: Option<string>, message: Option<string>): (n: Notification)
    ensures n.title != "" && n.body != ""
    ensures n.title == (if Truthy(title) then title.value else DEFAULT_TITLE)
    ensures n.body == (if Truthy(message) then message.value else DEFAULT_BODY)
  {
    Notification(OrElse(title, DEFAULT_TITLE), OrElse(message, DEFAULT_BODY))
  }

  /** Dropping the deadlines past `t1` and then those past a later `t2` drops those past `t2`. */
  lemma {:induction false} LaterTwice(pending: seq<int>, t1: int, t2: int)
    requires t1 <= t2
    ensures Later(Later(pending, t1), t2) == Later(pending, t2)
  {
    if pending != [] {
      var init := pending[..|pending| - 1];
      var last := pending[|pending| - 1];
      var l := Later(init, t1);
      LaterTwice(init, t1, t2);
      if last > t1 {
        assert Later(pending, t1) == l + [last];
        assert (l + [last])[..|l|] == l;
      } else {
        assert Later(pending, t1) == l;
      }
    }
  }

  /** A deadline due by `t2` was either due by `t1` or is still pending after firing at `t1`. */
  lemma {:induction false} AnyDueTwice(pending: seq<int>, t1: int, t2: int)
    requires t1 <= t2
    ensures AnyDue(pending, t1) || AnyDue(Later(pending, t1), t2) <==> AnyDue(pending, t2)
  {
    if pending != [] {
      var init := pending[..|pending| - 1];
      var last := pending[|pending| - 1];
      var l := Later(init, t1);
      AnyDueTwice(init, t1, t2);
      if last > t1 {
        assert Later(pending, t1) == l + [last];
        assert (l + [last])[..|l|] == l;
      } else {
        assert Later(pending, t1) == l;
      }
    }
  }

  /** Firing the timers at `t1` and then at a later `t2` leaves the gate as firing them at `t2` alone. */
  lemma FireTwice(g: GateState, t1: int, t2: int)
    requires t1 <= t2
    ensures Fire(Fire(g, t1), t2) == Fire(g, t2)
  {
    LaterTwice(g.pending, t1, t2);
    AnyDueTwice(g.pending, t1, t2);
  }

  /** However the gate stood, it is open again once 10 000 ms have passed since a non-test call. */
  lemma ReopensAfterCooldown(g: GateState, t: int, now: int)
    requires now >= t + COOLDOWN_MS
    ensures Fire(AfterOffer(g, false, t), now).open
  {
    var p := g.pending + [t + COOLDOWN_MS];
    assert p[|p| - 1] <= now;
  }

  /** A notification request reaching the main process at time `at`. */
  datatype Alert = Alert(isTesting: bool, at: int)

  /** One request: the due timers run, then `showNotification` is called. */
  function Step(g: GateState, a: Alert): GateState {
    AfterOffer(Fire(g, a.at), a.isTesting, a.at)
  }

  /** Whether each request of a sequence is shown. */
  function Run(g: GateState, alerts: seq<Alert>): (shown: seq<bool>)
    ensures |shown| == |alerts|
    decreases |alerts|
  {
    if alerts == [] then []
    else [Shown(Fire(g, alerts[0].at), alerts[0].isTesting)] + Run(Step(g, alerts[0]), alerts[1..])
  }

  /** Requests arrive in time order. */
  predicate Chronological(alerts: seq<Alert>) {
    forall i, j :: 0 <= i < j < |alerts| ==> alerts[i].at <= alerts[j].at
  }

  /** The non-test requests, in order. */
  function NonTests(alerts: seq<Alert>): (r: seq<Alert>)
    ensures forall a :: a in r ==> a in alerts && !a.isTesting
  {
    if alerts == [] then []
    else (if alerts[0].isTesting then [] else [alerts[0]]) + NonTests(alerts[1..])
  }

  /** The outcomes of the non-test requests, in order. */
  function NonTestOutcomes(alerts: seq<Alert>, shown: seq<bool>): seq<bool>
    requires |alerts| == |shown|
  {
    if alerts == [] then []
    else (if alerts[0].isTesting then [] else [shown[0]]) + NonTestOutcomes(alerts[1..], shown[1..])
  }

  /** Running timers early changes no outcome of requests that come later. */
  lemma RunAfterFire(g: GateState, t: int, alerts: seq<Alert>)
    requires alerts != [] ==> t <= alerts[0].at
    ensures Run(Fire(g, t), alerts) == Run(g, alerts)
  {
    if alerts != [] {
      FireTwice(g, t, alerts[0].at);
    }
  }

  /** Test notifications never change which real alerts are shown: they can be removed from any sequence of requests. */
  lemma {:induction false} TestsDoNotAffectGating(g: GateState, alerts: seq<Alert>)
    requires Chronological(alerts)
    ensures NonTestOutcomes(alerts, Run(g, alerts)) == Run(g, NonTests(alerts))
    decreases |alerts|
  {
    if alerts != [] {
      var a := alerts[0];
      var rest := alerts[1..];
      assert Chronological(rest);
      TestsDoNotAffectGating(Step(g, a), rest);
      assert Run(g, alerts)[1..] == Run(Step(g, a), rest);
      if a.isTesting {
        var nt := NonTests(rest);
        assert NonTests(alerts) == nt;
        assert Step(g, a) == Fire(g, a.at);
        if nt != [] {
          assert nt[0] in rest;
        }
        RunAfterFire(g, a.at, nt);
      }
    }
  }

  /** While the gate is closed and no timer falls before `bound`, every real alert before `bound` is suppressed. */
  lemma {:induction false} SuppressedUntil(g: GateState, alerts: seq<Alert>, bound: int)
    requires !g.open
    requires forall d :: d in g.pending ==> d >= bound
    requires forall i :: 0 <= i < |alerts| ==>
      !alerts[i].isTesting && bound - COOLDOWN_MS <= alerts[i].at < bound
    ensures forall k :: 0 <= k < |alerts| ==> !Run(g, alerts)[k]
    decreases |alerts|
  {
    if alerts != [] {
      var a := alerts[0];
      var g' := Step(g, a);
      forall i | 0 <= i < |g.pending| ensures g.pending[i] > a.at {
        assert g.pending[i] in g.pending;
      }
      AnyDueMeansSomeDeadline(g.pending, a.at);
      LaterMembers(g.pending, a.at);
      forall d | d in g'.pending ensures d >= bound {
        var q := Later(g.pending, a.at);
        assert d in q + [a.at + COOLDOWN_MS];
      }
      SuppressedUntil(g', alerts[1..], bound);
      forall k | 1 <= k < |alerts| ensures !Run(g, alerts)[k] {
        assert Run(g, alerts)[k] == Run(g', alerts[1..])[k - 1];
      }
    }
  }

  /** From start-up, a burst of real alerts within 10 000 ms of the first yields exactly one notification, the first. */
  lemma OneNotificationPerBurst(alerts: seq<Alert>)
    requires alerts != [] && Chronological(alerts)
    requires forall i :: 0 <= i < |alerts| ==> !alerts[i].isTesting && alerts[i].at < alerts[0].at + COOLDOWN_MS
    ensures Run(InitialGate, alerts)[0]
    ensures forall k :: 1 <= k < |alerts| ==> !Run(InitialGate, alerts)[k]
  {
    var g' := Step(InitialGate, alerts[0]);
    assert g'.pending == [alerts[0].at + COOLDOWN_MS];
    SuppressedUntil(g', alerts[1..], alerts[0].at + COOLDOWN_MS);
    forall k | 1 <= k < |alerts| ensures !Run(InitialGate, alerts)[k] {
      assert Run(InitialGate, alerts)[k] == Run(g', alerts[1..])[k - 1];
    }
  }

  /**
    A suppressed alert still schedules a reopening, so two notifications can be
    shown 3 000 ms apart: shown at 0, suppressed at 5 000, shown at 12 000 (the
    timer of 0 ran at 10 000), and shown again at 15 000 (the timer of 5 000).
   */
  lemma EarlyReopening()
    ensures Run(InitialGate, [Alert(false, 0), Alert(false, 5000), Alert(false, 12000), Alert(false, 15000)])
      == [true, false, true, true]
  {
    var a0, a1, a2, a3 := Alert(false, 0), Alert(false, 5000), Alert(false, 12000), Alert(false, 15000);
    var g1, g2, g3 := GateState(false, [10000]), GateState(false, [10000, 15000]), GateState(false, [15000, 22000]);
    ShownAt0();
    SuppressedAt5000();
    ShownAt12000();
    ShownAt15000();
    RunCons(g3, a3, []);
    RunCons(g2, a2, [a3]);
    RunCons(g1, a1, [a2, a3]);
    RunCons(InitialGate, a0, [a1, a2, a3]);
  }

  /** `Run` over a request followed by others. */
  lemma RunCons(g: GateState, a: Alert, rest: seq<Alert>)
    ensures Run(g, [a] + rest) == [Shown(Fire(g, a.at), a.isTesting)] + Run(Step(g, a), rest)
  {
    assert ([a] + rest)[1..] == rest;
  }

  /** Start-up, a real alert at 0: shown; the reopening is due at 10 000. */
  lemma ShownAt0()
    ensures Fire(InitialGate, 0).open && Step(InitialGate, Alert(false, 0)) == GateState(false, [10000])
  {
  }

  /** A real alert at 5 000: nothing is due, so it is suppressed; it schedules a second reopening at 15 000. */
  lemma SuppressedAt5000()
    ensures !Fire(GateState(false, [10000]), 5000).open
    ensures Step(GateState(false, [10000]), Alert(false, 5000)) == GateState(false, [10000, 15000])
  {
    assert [10000][..0] == [];
  }

  /** A real alert at 12 000: the reopening of 10 000 has run, so it is shown. */
  lemma ShownAt12000()
    ensures Fire(GateState(false, [10000, 15000]), 12000).open
    ensures Step(GateState(false, [10000, 15000]), Alert(false, 12000)) == GateState(false, [15000, 22000])
  {
    assert [10000, 15000][..1] == [10000];
    assert [10000][..0] == [];
    assert Later([10000], 12000) == [];
  }

  /** A real alert at 15 000: the reopening scheduled by the suppressed alert has run, so it is shown. */
  lemma ShownAt15000()
    ensures Fire(GateState(false, [15000, 22000]), 15000).open
  {
    assert [15000, 22000][..1] == [15000];
    assert [15000][..0] == [];
  }

  /** The main process's notification state. */
  class NotificationGate {
    /** The `sendNotification` flag. */
    var open: bool
    /** Deadlines of the timers scheduled by `getNotificationUpdate` that have not run yet. */
    var pending: seq<int>

    function State(): GateState
      reads this
    {
      GateState(open, pending)
    }

    constructor ()
      ensures State() == InitialGate
    {
      open, pending := true, [];
    }

    /** The event loop reaches `now`: every timer due by then runs and sets the flag. */
    method Tick(now: int)
      modifies this
      ensures State() == Fire(old(State()), now)
    {
      var rest: seq<int> := [];
      var i := 0;
      while i < |pending|
        invariant 0 <= i <= |pending|
        invariant pending == old(pending)
        invariant rest == Later(pending[..i], now)
        invariant open == (old(open) || AnyDue(pending[..i], now))
      {
        assert pending[..i + 1][..i] == pending[..i];
        if pending[i] <= now {
          open := true;
        } else {
          rest := rest + [pending[i]];
        }
        i := i + 1;
      }
      assert pending[..i] == pending;
      pending := rest;
    }

    /** `getNotificationUpdate`: schedule the flag to be set again 10 000 ms after `now`. */
    method GetNotificationUpdate(now: int)
      modifies this
      ensures open == old(open)
      ensures pending == old(pending) + [now + COOLDOWN_MS]
    {
      pending := pending + [now + COOLDOWN_MS];
    }

    /** `showNotification` at time `now`: returns the notification built and whether it is shown. */
    method ShowNotification(title: Option<string>, message: Option<string>, isTesting: bool, now: int)
      returns (n: Notification, shown: bool)
      modifies this
      ensures n == BuildNotification(title, message)
      ensures shown <==> isTesting || old(open)
      ensures isTesting ==> open == old(open) && pending == old(pending)
      ensures !isTesting ==> !open && pending == old(pending) + [now + COOLDOWN_MS]
    {
      n := Notification(OrElse(title, DEFAULT_TITLE), OrElse(message, DEFAULT_BODY));
      shown := isTesting || open;
      if !isTesting {
        open := false;
        GetNotificationUpdate(now);
      }
    }

    /** The `notification-setting-save` handler: a test notification confirming the save. */
    method OnSettingSaved(now: int) returns (n: Notification, shown: bool)
      modifies this
      ensures n == Notification(SAVED_TITLE, SAVED_BODY) && shown
      ensures open == old(open) && pending == old(pending)
    {
      n, shown := ShowNotification(Some(SAVED_TITLE), Some(SAVED_BODY), true, now);
    }
  }

  /** A checkbox entry of the "Choose Device" submenu; `onClick` is the device id a click sends back. */
  datatype MenuItem = MenuItem(labelText: string, checked: bool, onClick: Option<string>)

  /** `updateContextMenu`: the "Choose Device" entries for the device list received from the settings window. */
  method UpdateContextMenu(devices: seq<Renderer.SubMenu>) returns (subMenus: seq<MenuItem>)
    ensures |devices| == 0 ==> subMenus == [MenuItem(NO_DEVICE_LABEL, true, None)]
    ensures |devices| > 0 ==> |subMenus| == |devices|
    ensures |devices| > 0 ==> forall k :: 0 <= k < |devices| ==>
      subMenus[k] == MenuItem(devices[k].labelText, devices[k].isSelected, Some(devices[k].id))
  {
    subMenus := [];
    if |devices| == 0 {
      subMenus := subMenus + [MenuItem(NO_DEVICE_LABEL, true, None)];
    } else {
      var i := 0;
      while i < |devices|
        invariant 0 <= i <= |devices|
        invariant |subMenus| == i
        invariant forall k :: 0 <= k < i ==>
          subMenus[k] == MenuItem(devices[k].labelText, devices[k].isSelected, Some(devices[k].id))
      {
        var device := devices[i];
        subMenus := subMenus + [MenuItem(device.labelText, device.isSelected, Some(device.id))];
        i := i + 1;
      }
    }
  }
}
