/**
  Properties that span both processes: the settings window sends its device
  list and its loudness alerts over IPC, and the tray process turns them into
  menu entries and notifications; a click on an entry comes back as
  `change-audio-device`.
 */
module Pipeline {
  import opened JsValues
  import opened Renderer
  import opened MainProcess

  /** One processed audio frame: its average amplitude and the time it is handled. */
  datatype Frame = Frame(amplitude: real, at: int)

  /** The `loud-sound-detected` requests the frames cause, in order: one per loud frame, none of them a test. */
  function LoudAlerts(frames: seq<Frame>, threshold: JsNumber): (alerts: seq<Alert>)
    ensures |alerts| <= |frames|
    ensures forall a :: a in alerts ==> !a.isTesting
    ensures forall a :: a in alerts ==> exists f :: f in frames && f.at == a.at && IsLoud(f.amplitude, threshold)
    ensures forall i :: 0 <= i < |frames| && IsLoud(frames[i].amplitude, threshold) ==>
      Alert(false, frames[i].at) in alerts
  {
    if frames == [] then []
    else
      (if IsLoud(frames[0].amplitude, threshold) then [Alert(false, frames[0].at)] else [])
        + LoudAlerts(frames[1..], threshold)
  }

  /** A single frame gives one real alert at its time when it is loud, and none otherwise. */
  lemma LoudAlertsSingle(f: Frame, threshold: JsNumber)
    ensures LoudAlerts([f], threshold) == (if IsLoud(f.amplitude, threshold) then [Alert(false, f.at)] else [])
  {
    assert [f][1..] == [];
  }

  /** Frames handled one after another give their alerts one after another: order is kept. */
  lemma {:induction false} LoudAlertsAppend(a: seq<Frame>, b: seq<Frame>, threshold: JsNumber)
    ensures LoudAlerts(a + b, threshold) == LoudAlerts(a, threshold) + LoudAlerts(b, threshold)
  {
    if a == [] {
      assert a + b == b;
    } else {
      assert (a + b)[1..] == a[1..] + b;
      LoudAlertsAppend(a[1..], b, threshold);
    }
  }

  /**
    Choosing a device in the tray and enumerating the same devices again selects
    it, persists it and marks exactly the entries with its id, provided its id
    is not empty.
   */
  lemma ClickSelectsDevice(s: ScriptState, devices: seq<MediaDevice>, e: SubMenu)
    requires e in MenuList(devices, s.selectedAudioDevice)
    requires e.id != ""
    ensures var r := AfterEnumeration(AfterChoice(s, e.id), devices);
      && r.selectedAudioDevice == Some(e.id)
      && Lookup(r.storage, SELECTED_KEY) == Some(e.id)
      && var list := MenuList(devices, r.selectedAudioDevice);
      && (forall k :: 0 <= k < |list| ==> (list[k].isSelected <==> list[k].id == e.id))
  {
    MenuListMembers(devices, s.selectedAudioDevice, e);
    var i :| 0 <= i < |devices| && devices[i].kind == AudioInput && e == Entry(devices[i], s.selectedAudioDevice);
    assert Present(e.id, devices);
    var r := AfterEnumeration(AfterChoice(s, e.id), devices);
    MenuListFlags(devices, r.selectedAudioDevice);
  }

  /**
    With the default threshold, frames of amplitude 0.5 at 0, 5 000 and
    11 000 ms give a notification, a suppressed alert and a notification again;
    a frame of exactly 0.4 at 8 000 ms sends nothing.
   */
  lemma DefaultThresholdScenario(toNumber: string -> JsNumber)
    ensures var t := Threshold(AfterSavedInfo(Initial(map[]), toNumber).alertAmplitude, toNumber);
      && t == Num(DEFAULT_THRESHOLD)
      && LoudAlerts([Frame(0.5, 0), Frame(0.5, 5000), Frame(0.4, 8000), Frame(0.5, 11000)], t)
        == [Alert(false, 0), Alert(false, 5000), Alert(false, 11000)]
      && Run(InitialGate, [Alert(false, 0), Alert(false, 5000), Alert(false, 11000)]) == [true, false, true]
  {
    ScenarioFrames();
    ScenarioGate();
  }

  /** The frames of `DefaultThresholdScenario` against the threshold 0.4. */
  lemma ScenarioFrames()
    ensures LoudAlerts([Frame(0.5, 0), Frame(0.5, 5000), Frame(0.4, 8000), Frame(0.5, 11000)], Num(DEFAULT_THRESHOLD))
      == [Alert(false, 0), Alert(false, 5000), Alert(false, 11000)]
  {
    var t := Num(DEFAULT_THRESHOLD);
    var frames := [Frame(0.5, 0), Frame(0.5, 5000), Frame(0.4, 8000), Frame(0.5, 11000)];
    assert frames[1..][1..][1..][1..] == [];
    assert LoudAlerts(frames[1..][1..][1..], t) == [Alert(false, 11000)];
    assert LoudAlerts(frames[1..][1..], t) == [Alert(false, 11000)];
    assert LoudAlerts(frames[1..], t) == [Alert(false, 5000), Alert(false, 11000)];
  }

  /** The alerts of `DefaultThresholdScenario` through the gate. */
  lemma ScenarioGate()
    ensures Run(InitialGate, [Alert(false, 0), Alert(false, 5000), Alert(false, 11000)]) == [true, false, true]
  {
    var a0, a1, a2 := Alert(false, 0), Alert(false, 5000), Alert(false, 11000);
    var g1, g2 := GateState(false, [10000]), GateState(false, [10000, 15000]);
    ShownAt0();
    SuppressedAt5000();
    assert Fire(g2, 11000).open by {
      assert [10000, 15000][..1] == [10000];
      assert [10000][..0] == [];
    }
    RunCons(g2, a2, []);
    RunCons(g1, a1, [a2]);
    RunCons(InitialGate, a0, [a1, a2]);
  }
}
