/**
  The settings window's script (renderer.js): device selection and the device
  list sent to the tray, the loudness test on each audio frame, and the
  notification settings kept in `localStorage`.

  The script's module-level variables and `localStorage` are the fields of the
  class `Renderer`; `State()` gathers them into a value, and each handler is
  specified by a function from the old state to the new one.
 */
module Renderer {
  import opened JsValues

  const SELECTED_KEY := "selectedAudioDevice"
  const TITLE_KEY := "title"
  const MESSAGE_KEY := "message"
  const AMPLITUDE_KEY := "amplitude"
  /** Read once at start-up; no code of the application ever writes it. */
  const ALERT_AMPLITUDE_KEY := "alertAmplitude"

  /** The threshold used when none is configured, and its stored text. */
  const DEFAULT_THRESHOLD: real := 0.4
  const DEFAULT_THRESHOLD_TEXT := "0.4"

  /** `localStorage`: string keys to string values. */
  type Storage = map<string, string>

  datatype DeviceKind = AudioInput | AudioOutput | VideoInput

  /** One entry of `navigator.mediaDevices.enumerateDevices()`. */
  datatype MediaDevice = MediaDevice(deviceId: string, labelText: string, kind: DeviceKind)

  /** One entry of the device list sent to the main process. */
  datatype SubMenu = SubMenu(labelText: string, id: string, isSelected: bool)

  /** The payload of a `loud-sound-detected` message. */
  datatype AlertRequest = AlertRequest(title: Option<string>, message: Option<string>, isTesting: bool)

  /** What the `alertAmplitude` variable holds: nothing, the raw text read at start-up, or a parsed number. */
  datatype Amplitude = Unset | Text(text: string) | Number(n: JsNumber)

  /** The script's variables together with `localStorage`. */
  datatype ScriptState = ScriptState(
    selectedAudioDevice: Option<string>,
    isDeviceFound: bool,
    title: Option<string>,
    message: Option<string>,
    alertAmplitude: Amplitude,
    storage: Storage)

  /** `localStorage.getItem(key)`. */
  function Lookup(m: Storage, key: string): Option<string> {
    if key in m then Some(m[key]) else None
  }

  /** Some enumerated device has this id. */
  predicate Present(id: string, devices: seq<MediaDevice>) {
    exists i :: 0 <= i < |devices| && devices[i].deviceId == id
  }

  /** The previous selection survives an enumeration: it is truthy and among the devices. */
  predicate Keeps(prev: Option<string>, devices: seq<MediaDevice>) {
    Truthy(prev) && Present(prev.value, devices)
  }

  /** An enumeration replaces the selection (and writes it to the store). */
  predicate Rewrites(prev: Option<string>, devices: seq<MediaDevice>) {
    |devices| > 0 && !Keeps(prev, devices)
  }

  /** The selection after an enumeration. */
  function Resolve(prev: Option<string>, devices: seq<MediaDevice>): (sel: Option<string>)
    ensures |devices| == 0 ==> sel == prev
    ensures Keeps(prev, devices) ==> sel == prev
    ensures |devices| > 0 ==> sel.Some? && Present(sel.value, devices)
    ensures Rewrites(prev, devices) ==> sel == Some(devices[0].deviceId)
  {
    if Rewrites(prev, devices) then Some(devices[0].deviceId)
    else prev
  }

  /** The device-list entry for one device. */
  function Entry(d: MediaDevice, selected: Option<string>): SubMenu {
    SubMenu(d.labelText, d.deviceId, selected == Some(d.deviceId))
  }

  /** The device list sent to the main process: one entry per audio input, in enumeration order. */
  function MenuList(devices: seq<MediaDevice>, selected: Option<string>): seq<SubMenu> {
    if devices == [] then []
    else
      var last := devices[|devices| - 1];
      MenuList(devices[..|devices| - 1], selected)
        + (if last.kind == AudioInput then [Entry(last, selected)] else [])
  }

  /** Building the list over two parts is building it over each part in turn: order is kept. */
  lemma {:induction false} MenuListAppend(a: seq<MediaDevice>, b: seq<MediaDevice>, selected: Option<string>)
    ensures MenuList(a + b, selected) == MenuList(a, selected) + MenuList(b, selected)
  {
    if b == [] {
      assert a + b == a;
    } else {
      var b' := b[..|b| - 1];
      assert (a + b)[..|a + b| - 1] == a + b';
      MenuListAppend(a, b', selected);
    }
  }

  /** The list holds exactly the entries of the audio-input devices. */
  lemma {:induction false} MenuListMembers(devices: seq<MediaDevice>, selected: Option<string>, e: SubMenu)
    ensures e in MenuList(devices, selected) <==>
      exists i :: 0 <= i < |devices| && devices[i].kind == AudioInput && e == Entry(devices[i], selected)
  {
    if devices != [] {
      var init := devices[..|devices| - 1];
      MenuListMembers(init, selected, e);
      if e in MenuList(init, selected) {
        var i :| 0 <= i < |init| && init[i].kind == AudioInput && e == Entry(init[i], selected);
        assert devices[i] == init[i];
      }
      if exists i :: 0 <= i < |devices| && devices[i].kind == AudioInput && e == Entry(devices[i], selected) {
        var i :| 0 <= i < |devices| && devices[i].kind == AudioInput && e == Entry(devices[i], selected);
        if i < |init| {
          assert init[i] == devices[i];
        }
      }
    }
  }

  /** An entry is marked selected exactly when its id is the selection. */
  lemma {:induction false} MenuListFlags(devices: seq<MediaDevice>, selected: Option<string>)
    ensures forall k :: 0 <= k < |MenuList(devices, selected)| ==>
      (MenuList(devices, selected)[k].isSelected <==> selected == Some(MenuList(devices, selected)[k].id))
  {
    if devices != [] {
      MenuListFlags(devices[..|devices| - 1], selected);
    }
  }

  /**
    The effective threshold of the loudness test: the variable if it is truthy,
    else 0.4. Raw text is compared as a number, as `>` converts it.
   */
  function Threshold(a: Amplitude, toNumber: string -> JsNumber): (t: JsNumber)
    ensures a == Unset ==> t == Num(DEFAULT_THRESHOLD)
    ensures a.Number? ==> NumTruthy(t)
    ensures a.Number? && NumTruthy(a.n) ==> t == a.n
    ensures a.Number? && !NumTruthy(a.n) ==> t == Num(DEFAULT_THRESHOLD)
    ensures a.Text? ==> t == (if a.text != "" then toNumber(a.text) else Num(DEFAULT_THRESHOLD))
  {
    match a
    case Unset => Num(DEFAULT_THRESHOLD)
    case Text(s) => if s != "" then toNumber(s) else Num(DEFAULT_THRESHOLD)
    case Number(n) => if NumTruthy(n) then n else Num(DEFAULT_THRESHOLD)
  }

  /** The loudness test: strictly above a threshold that is a number (never true against NaN). */
  predicate IsLoud(amplitude: real, threshold: JsNumber) {
    threshold.Num? && amplitude > threshold.value
  }

  /** The state when the script is loaded over a persisted store. */
  function Initial(persisted: Storage): ScriptState {
    ScriptState(None, false, None, None, Unset, persisted)
  }

  /** `getSavedInfo`: reload the variables from the store and seed the amplitude key when it is missing or empty. */
  function AfterSavedInfo(s: ScriptState, toNumber: string -> JsNumber): (r: ScriptState)
    ensures r.isDeviceFound == s.isDeviceFound
    ensures r.selectedAudioDevice == Lookup(s.storage, SELECTED_KEY)
    ensures r.title == Lookup(s.storage, TITLE_KEY) && r.message == Lookup(s.storage, MESSAGE_KEY)
    ensures AMPLITUDE_KEY in r.storage && r.storage[AMPLITUDE_KEY] != ""
    ensures forall k :: k in r.storage && k != AMPLITUDE_KEY ==> k in s.storage && r.storage[k] == s.storage[k]
    ensures forall k :: k in s.storage ==> k in r.storage
    ensures Truthy(Lookup(s.storage, AMPLITUDE_KEY)) ==> r.storage == s.storage
    ensures !Truthy(Lookup(s.storage, AMPLITUDE_KEY)) ==>
      r.storage == s.storage[AMPLITUDE_KEY := DEFAULT_THRESHOLD_TEXT]
    ensures Truthy(Lookup(s.storage, AMPLITUDE_KEY)) ==>
      r.alertAmplitude == Number(toNumber(s.storage[AMPLITUDE_KEY]))
    ensures !Truthy(Lookup(s.storage, AMPLITUDE_KEY)) ==>
      r.alertAmplitude == (if ALERT_AMPLITUDE_KEY in s.storage then Text(s.storage[ALERT_AMPLITUDE_KEY]) else Unset)
  {
    var alert := Lookup(s.storage, AMPLITUDE_KEY);
    var legacy := Lookup(s.storage, ALERT_AMPLITUDE_KEY);
    s.(selectedAudioDevice := Lookup(s.storage, SELECTED_KEY),
       title := Lookup(s.storage, TITLE_KEY),
       message := Lookup(s.storage, MESSAGE_KEY),
       alertAmplitude :=
         if Truthy(alert) then Number(toNumber(alert.value))
         else if legacy.Some? then Text(legacy.value) else Unset,
       storage := if Truthy(alert) then s.storage else s.storage[AMPLITUDE_KEY := DEFAULT_THRESHOLD_TEXT])
  }

  /** `getAudioInputs` on a fresh enumeration: resolve the selection and set the device-found flag. */
  function AfterEnumeration(s: ScriptState, devices: seq<MediaDevice>): (r: ScriptState)
    ensures r.isDeviceFound <==> |devices| > 0
    ensures r.selectedAudioDevice == Resolve(s.selectedAudioDevice, devices)
    ensures r.title == s.title && r.message == s.message && r.alertAmplitude == s.alertAmplitude
    ensures !Rewrites(s.selectedAudioDevice, devices) ==> r.storage == s.storage
    ensures Rewrites(s.selectedAudioDevice, devices) ==>
      r.storage == s.storage[SELECTED_KEY := devices[0].deviceId]
  {
    s.(selectedAudioDevice := Resolve(s.selectedAudioDevice, devices),
       isDeviceFound := |devices| > 0,
       storage :=
         if Rewrites(s.selectedAudioDevice, devices) then s.storage[SELECTED_KEY := devices[0].deviceId]
         else s.storage)
  }

  /** The `change-audio-device` handler before it re-enumerates: select and persist the chosen id. */
  function AfterChoice(s: ScriptState, deviceId: string): (r: ScriptState)
    ensures r.selectedAudioDevice == Some(deviceId)
    ensures r.storage.Keys == s.storage.Keys + {SELECTED_KEY} && r.storage[SELECTED_KEY] == deviceId
    ensures forall k :: k in s.storage && k != SELECTED_KEY ==> r.storage[k] == s.storage[k]
    ensures r.isDeviceFound == s.isDeviceFound && r.title == s.title && r.message == s.message
    ensures r.alertAmplitude == s.alertAmplitude
  {
    s.(selectedAudioDevice := Some(deviceId), storage := s.storage[SELECTED_KEY := deviceId])
  }

  /** Enumerating the same devices again changes nothing; with a non-empty first id it does not even rewrite the store. */
  lemma ReenumerationIsStable(s: ScriptState, devices: seq<MediaDevice>)
    ensures AfterEnumeration(AfterEnumeration(s, devices), devices) == AfterEnumeration(s, devices)
    ensures devices != [] && devices[0].deviceId != "" ==>
      !Rewrites(AfterEnumeration(s, devices).selectedAudioDevice, devices)
  {
    if Rewrites(s.selectedAudioDevice, devices) {
      assert Present(devices[0].deviceId, devices);
    }
  }

  /**
    A stored selection "b" survives an enumeration of "a" and "b" without a
    write, and is replaced by "a", which is persisted, when only "a" remains.
   */
  lemma SelectionScenario(s: ScriptState)
    requires s.selectedAudioDevice == Some("b")
    ensures var r := AfterEnumeration(s, [MediaDevice("a", "A", AudioInput), MediaDevice("b", "B", AudioInput)]);
      r.selectedAudioDevice == Some("b") && r.storage == s.storage && r.isDeviceFound
    ensures var r := AfterEnumeration(s, [MediaDevice("a", "A", AudioInput)]);
      r.selectedAudioDevice == Some("a") && r.storage == s.storage[SELECTED_KEY := "a"] && r.isDeviceFound
  {
    var both := [MediaDevice("a", "A", AudioInput), MediaDevice("b", "B", AudioInput)];
    assert both[1].deviceId == "b";
    var one := [MediaDevice("a", "A", AudioInput)];
    assert !Present("b", one) by {
      assert "b" != "a" by { assert "b"[0] != "a"[0]; }
    }
  }

  /**
    On a store without an amplitude, start-up seeds "0.4" and the threshold is
    0.4; the next start-up reads "0.4" back, writes nothing and keeps 0.4.
   */
  lemma DefaultThresholdSurvivesRestart(persisted: Storage, toNumber: string -> JsNumber)
    requires AMPLITUDE_KEY !in persisted && ALERT_AMPLITUDE_KEY !in persisted
    requires toNumber(DEFAULT_THRESHOLD_TEXT) == Num(DEFAULT_THRESHOLD)
    ensures var first := AfterSavedInfo(Initial(persisted), toNumber);
      && first.storage == persisted[AMPLITUDE_KEY := DEFAULT_THRESHOLD_TEXT]
      && Threshold(first.alertAmplitude, toNumber) == Num(DEFAULT_THRESHOLD)
      && var second := AfterSavedInfo(Initial(first.storage), toNumber);
      && second.storage == first.storage
      && Threshold(second.alertAmplitude, toNumber) == Num(DEFAULT_THRESHOLD)
  {
    var first := AfterSavedInfo(Initial(persisted), toNumber);
    assert Lookup(first.storage, AMPLITUDE_KEY) == Some(DEFAULT_THRESHOLD_TEXT);
  }

  /**
    The threshold in effect after start-up, for any store: a truthy `amplitude`
    value parsed to a truthy number is used; one that parses to 0 or NaN gives
    0.4; without one, a non-empty `alertAmplitude` value is compared as a
    number, and otherwise the threshold is 0.4.
   */
  lemma StartUpThreshold(s: ScriptState, toNumber: string -> JsNumber)
    ensures var t := Threshold(AfterSavedInfo(s, toNumber).alertAmplitude, toNumber);
      var stored := Lookup(s.storage, AMPLITUDE_KEY);
      var legacy := Lookup(s.storage, ALERT_AMPLITUDE_KEY);
      && (Truthy(stored) && NumTruthy(toNumber(stored.value)) ==> t == toNumber(stored.value))
      && (Truthy(stored) && !NumTruthy(toNumber(stored.value)) ==> t == Num(DEFAULT_THRESHOLD))
      && (!Truthy(stored) && Truthy(legacy) ==> t == toNumber(legacy.value))
      && (!Truthy(stored) && !Truthy(legacy) ==> t == Num(DEFAULT_THRESHOLD))
  {
  }

  /** A second start-up, over whatever the first one left, writes nothing and reloads the same variables. */
  lemma StartUpSeedsOnce(s: ScriptState, toNumber: string -> JsNumber)
    ensures var first := AfterSavedInfo(s, toNumber);
      AfterSavedInfo(first, toNumber).storage == first.storage
      && (Truthy(Lookup(s.storage, AMPLITUDE_KEY)) ==> AfterSavedInfo(first, toNumber) == first)
  {
    var first := AfterSavedInfo(s, toNumber);
    assert Truthy(Lookup(first.storage, AMPLITUDE_KEY));
  }

  /** `saveNotificationSettings` with the two input values: each is kept only if it does not trim to empty. */
  function AfterSave(s: ScriptState, titleValue: string, messageValue: string): ScriptState {
    var s1 :=
      if Trim(titleValue) == "" then s
      else s.(title := Some(titleValue), storage := s.storage[TITLE_KEY := titleValue]);
    if Trim(messageValue) == "" then s1
    else s1.(message := Some(messageValue), storage := s1.storage[MESSAGE_KEY := messageValue])
  }

  /** Saving stores each untrimmed value exactly when it is not all white space. */
  lemma SaveStoresNonBlank(s: ScriptState, titleValue: string, messageValue: string)
    ensures var r := AfterSave(s, titleValue, messageValue);
      && (!Blank(titleValue) ==> r.title == Some(titleValue) && Lookup(r.storage, TITLE_KEY) == Some(titleValue))
      && (Blank(titleValue) ==> r.title == s.title && Lookup(r.storage, TITLE_KEY) == Lookup(s.storage, TITLE_KEY))
      && (!Blank(messageValue) ==> r.message == Some(messageValue) && Lookup(r.storage, MESSAGE_KEY) == Some(messageValue))
      && (Blank(messageValue) ==> r.message == s.message && Lookup(r.storage, MESSAGE_KEY) == Lookup(s.storage, MESSAGE_KEY))
  {
    TrimEmptyIffBlank(titleValue);
    TrimEmptyIffBlank(messageValue);
    assert TITLE_KEY != MESSAGE_KEY by { assert TITLE_KEY[0] != MESSAGE_KEY[0]; }
  }

  /** Saving changes no other variable and no other key. */
  lemma SaveTouchesNothingElse(s: ScriptState, titleValue: string, messageValue: string, k: string)
    requires k != TITLE_KEY && k != MESSAGE_KEY
    ensures var r := AfterSave(s, titleValue, messageValue);
      && r.selectedAudioDevice == s.selectedAudioDevice
      && r.isDeviceFound == s.isDeviceFound
      && r.alertAmplitude == s.alertAmplitude
      && Lookup(r.storage, k) == Lookup(s.storage, k)
  {
  }

  /** `clearTexts`: forget the title and message, and remove only their keys. */
  function AfterClear(s: ScriptState): (r: ScriptState)
    ensures r.title == None && r.message == None
    ensures TITLE_KEY !in r.storage && MESSAGE_KEY !in r.storage
    ensures forall k :: k != TITLE_KEY && k != MESSAGE_KEY ==> Lookup(r.storage, k) == Lookup(s.storage, k)
    ensures r.selectedAudioDevice == s.selectedAudioDevice && r.isDeviceFound == s.isDeviceFound
    ensures r.alertAmplitude == s.alertAmplitude
  {
    s.(title := None, message := None, storage := s.storage - {TITLE_KEY, MESSAGE_KEY})
  }

  /** The script's state: its module-level variables and `localStorage`. */
  class Renderer {
    var selectedAudioDevice: Option<string>
    var isDeviceFound: bool
    var title: Option<string>
    var message: Option<string>
    var alertAmplitude: Amplitude
    /** `localStorage` */
    var storage: Storage

    function State(): ScriptState
      reads this
    {
      ScriptState(selectedAudioDevice, isDeviceFound, title, message, alertAmplitude, storage)
    }

    /** Loading the script over the persisted store. */
    constructor (persisted: Storage)
      ensures State() == Initial(persisted)
    {
      selectedAudioDevice, isDeviceFound := None, false;
      title, message, alertAmplitude := None, None, Unset;
      storage := persisted;
    }

    /** `getSavedInfo`; `toNumber` stands for JavaScript's `Number(...)`. */
    method GetSavedInfo(toNumber: string -> JsNumber)
      modifies this
      ensures State() == AfterSavedInfo(old(State()), toNumber)
    {
      selectedAudioDevice := Lookup(storage, SELECTED_KEY);
      title := Lookup(storage, TITLE_KEY);
      message := Lookup(storage, MESSAGE_KEY);
      var legacy := Lookup(storage, ALERT_AMPLITUDE_KEY);
      alertAmplitude := if legacy.Some? then Text(legacy.value) else Unset;
      var alert := Lookup(storage, AMPLITUDE_KEY);
      if Truthy(alert) {
        alertAmplitude := Number(toNumber(alert.value));
      } else {
        storage := storage[AMPLITUDE_KEY := DEFAULT_THRESHOLD_TEXT];
      }
    }

    /** `getAudioInputs` over the devices just enumerated; returns the list sent to the main process. */
    method GetAudioInputs(devices: seq<MediaDevice>) returns (subMenus: seq<SubMenu>)
      modifies this
      ensures State() == AfterEnumeration(old(State()), devices)
      ensures subMenus == MenuList(devices, selectedAudioDevice)
    {
      subMenus := [];
      if Truthy(selectedAudioDevice) && |devices| > 0 {
        if !Present(selectedAudioDevice.value, devices) {
          selectedAudioDevice := None;
        }
      }
      if !Truthy(selectedAudioDevice) && |devices| > 0 {
        selectedAudioDevice := Some(devices[0].deviceId);
        storage := storage[SELECTED_KEY := selectedAudioDevice.value];
      }
      if |devices| > 0 {
        isDeviceFound := true;
        var i := 0;
        while i < |devices|
          invariant 0 <= i <= |devices|
          invariant subMenus == MenuList(devices[..i], selectedAudioDevice)
        {
          var device := devices[i];
          assert devices[..i + 1][..i] == devices[..i];
          if device.kind == AudioInput {
            subMenus := subMenus + [SubMenu(device.labelText, device.deviceId, Some(device.deviceId) == selectedAudioDevice)];
          }
          i := i + 1;
        }
        assert devices[..i] == devices;
      } else {
        isDeviceFound := false;
      }
    }

    /** The `change-audio-device` handler: persist the chosen id, then re-enumerate. */
    method ChangeAudioDevice(deviceId: string, devices: seq<MediaDevice>) returns (subMenus: seq<SubMenu>)
      modifies this
      ensures State() == AfterEnumeration(AfterChoice(old(State()), deviceId), devices)
      ensures subMenus == MenuList(devices, selectedAudioDevice)
    {
      selectedAudioDevice := Some(deviceId);
      storage := storage[SELECTED_KEY := deviceId];
      subMenus := GetAudioInputs(devices);
    }

    /**
      The loudness test of `onaudioprocess` for one frame whose average
      amplitude is `amplitude`: an alert is sent, with the current title and
      message, exactly when the amplitude is strictly above the effective threshold.
     */
    method OnAudioProcess(amplitude: real, toNumber: string -> JsNumber) returns (alert: Option<AlertRequest>)
      ensures alert.Some? <==> IsLoud(amplitude, Threshold(alertAmplitude, toNumber))
      ensures alert.Some? ==> alert.value == AlertRequest(title, message, false)
    {
      var threshold := Threshold(alertAmplitude, toNumber);
      var isLoud := threshold.Num? && amplitude > threshold.value;
      if isLoud {
        alert := Some(AlertRequest(title, message, false));
      } else {
        alert := None;
      }
    }

    /** `saveNotificationSettings` with the values of the two inputs; returns whether `notification-setting-save` is sent. */
    method SaveNotificationSettings(titleValue: string, messageValue: string) returns (saveSent: bool)
      modifies this
      ensures State() == AfterSave(old(State()), titleValue, messageValue)
      ensures saveSent <==> !Blank(titleValue) && !Blank(messageValue)
    {
      if Trim(titleValue) != "" {
        title := Some(titleValue);
        storage := storage[TITLE_KEY := titleValue];
      }
      if Trim(messageValue) != "" {
        message := Some(messageValue);
        storage := storage[MESSAGE_KEY := messageValue];
      }
      saveSent := Trim(titleValue) != "" && Trim(messageValue) != "";
      TrimEmptyIffBlank(titleValue);
      TrimEmptyIffBlank(messageValue);
    }

    /** `clearTexts`. */
    method ClearTexts()
      modifies this
      ensures State() == AfterClear(old(State()))
    {
      title := None;
      message := None;
      storage := storage - {TITLE_KEY};
      storage := storage - {MESSAGE_KEY};
    }
  }
}
