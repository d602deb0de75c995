/** The device card: a device's own view with local copies of its name and
    switch, an inline name editor, and busy flags on its switch and delete
    buttons. Registry calls are recorded in `calls` and answered by outcome
    parameters, toasts go to `notices`, and each `onRefresh(true)` call the
    card makes to its parent is appended to `refreshes`. */
module Components {
  import opened Registry

  const ToggleFailed: string := "Failed to toggle device (server offline?)"
  const DeleteFailed: string := "Failed to delete device (server offline?)"
  const RenameFailed: string := "Rename failed (server offline?)"

  /** A switch request in flight: the name it was keyed by and the state asked for. */
  datatype SwitchRequest = SwitchRequest(name: string, desired: bool)

  class DeviceCard {
    /** The `device` prop as last passed by the parent. */
    var device: Device
    var name: string
    var editing: bool
    var switchState: Option<bool>
    var loadingSwitch: bool
    var loadingDelete: bool
    ghost var calls: seq<Call>
    ghost var notices: seq<Notice>
    ghost var refreshes: seq<bool>

    /** Mounting: the local name and switch start as the device's own. */
    constructor (d: Device)
      ensures device == d && name == d.name && switchState == d.switch
      ensures !editing && !loadingSwitch && !loadingDelete
      ensures calls == [] && notices == [] && refreshes == []
    {
      device, name, switchState := d, d.name, d.switch;
      editing, loadingSwitch, loadingDelete := false, false, false;
      calls, notices, refreshes := [], [], [];
    }

    /** A re-render with a new `device` prop: local state keeps its values,
        since initial values are taken only on mount. */
    method ReceiveProps(d: Device)
      modifies this
      ensures device == d
      ensures name == old(name) && editing == old(editing) && switchState == old(switchState)
      ensures loadingSwitch == old(loadingSwitch) && loadingDelete == old(loadingDelete)
      ensures calls == old(calls) && notices == old(notices) && refreshes == old(refreshes)
    {
      device := d;
    }

    /** The click on the title opens the editor. */
    method StartEditing()
      modifies this`editing
      ensures editing
    {
      editing := true;
    }

    /** Typing in the editor changes only the local name. */
    method EditName(text: string)
      modifies this`name
      ensures name == text
    {
      name := text;
    }

    /** The first half of `toggleSwitch`, up to the await: the button shows
        busy and the registry is asked, by the local name, for the opposite of
        the local switch. */
    method BeginToggle() returns (req: SwitchRequest)
      modifies this`loadingSwitch, this`calls
      ensures loadingSwitch
      ensures req == SwitchRequest(name, !Truthy(switchState))
      ensures calls == old(calls) + [SetSwitch(req.name, req.desired)]
    {
      req := SwitchRequest(name, !Truthy(switchState));
      loadingSwitch := true;
      calls := calls + [SetSwitch(req.name, req.desired)];
    }

    /** The second half of `toggleSwitch`, once the registry answered: the
        local switch takes the requested state only if the registry confirmed
        it; the busy flag is cleared either way. */
    method FinishToggle(req: SwitchRequest, outcome: Outcome<Device>)
      modifies this`switchState, this`loadingSwitch, this`notices, this`refreshes
      ensures !loadingSwitch
      ensures outcome.Success? ==>
        switchState == Some(req.desired) &&
        notices == old(notices) + [SuccessNotice(req.name + " turned " + OnOff(req.desired))] &&
        refreshes == old(refreshes) + [true]
      ensures outcome.Failure? ==>
        switchState == old(switchState) &&
        notices == old(notices) + [ErrorNotice(ToggleFailed)] &&
        refreshes == old(refreshes)
    {
      match outcome {
        case Success(_) =>
          switchState := Some(req.desired);
          notices := notices + [SuccessNotice(req.name + " turned " + OnOff(req.desired))];
          refreshes := refreshes + [true];
        case Failure =>
          notices := notices + [ErrorNotice(ToggleFailed)];
      }
      loadingSwitch := false;
    }

    /** `toggleSwitch` as a whole: one request keyed by the local name; the
        local switch reads as flipped exactly when the registry confirmed. */
    method ToggleSwitch(outcome: Outcome<Device>)
      modifies this`switchState, this`loadingSwitch, this`calls, this`notices, this`refreshes
      ensures !loadingSwitch
      ensures calls == old(calls) + [SetSwitch(name, !Truthy(old(switchState)))]
      ensures Truthy(switchState) == (Truthy(old(switchState)) != outcome.Success?)
      ensures outcome.Success? ==> switchState == Some(!Truthy(old(switchState)))
      ensures outcome.Failure? ==> switchState == old(switchState)
      ensures refreshes == old(refreshes) + if outcome.Success? then [true] else []
      ensures notices == old(notices) + [
        if outcome.Success? then SuccessNotice(name + " turned " + OnOff(!Truthy(old(switchState))))
        else ErrorNotice(ToggleFailed)]
    {
      var req := BeginToggle();
      FinishToggle(req, outcome);
    }

    /** The first half of `handleDelete`: the button shows busy and the
        registry is asked to delete the device by the local name. */
    method BeginDelete() returns (key: string)
      modifies this`loadingDelete, this`calls
      ensures loadingDelete
      ensures key == name
      ensures calls == old(calls) + [DeleteDevice(key)]
    {
      key := name;
      loadingDelete := true;
      calls := calls + [DeleteDevice(key)];
    }

    /** The second half of `handleDelete`: a toast, a refresh request to the
        parent on success only, and the busy flag cleared either way. */
    method FinishDelete(key: string, outcome: Outcome<()>)
      modifies this`loadingDelete, this`notices, this`refreshes
      ensures !loadingDelete
      ensures outcome.Success? ==>
        notices == old(notices) + [SuccessNotice(key + " deleted")] && refreshes == old(refreshes) + [true]
      ensures outcome.Failure? ==>
        notices == old(notices) + [ErrorNotice(DeleteFailed)] && refreshes == old(refreshes)
    {
      match outcome {
        case Success(_) =>
          notices := notices + [SuccessNotice(key + " deleted")];
          refreshes := refreshes + [true];
        case Failure =>
          notices := notices + [ErrorNotice(DeleteFailed)];
      }
      loadingDelete := false;
    }

    /** `handleDelete` as a whole. */
    method Delete(outcome: Outcome<()>)
      modifies this`loadingDelete, this`calls, this`notices, this`refreshes
      ensures !loadingDelete
      ensures calls == old(calls) + [DeleteDevice(name)]
      ensures refreshes == old(refreshes) + if outcome.Success? then [true] else []
      ensures notices == old(notices) + [
        if outcome.Success? then SuccessNotice(name + " deleted") else ErrorNotice(DeleteFailed)]
    {
      var key := BeginDelete();
      FinishDelete(key, outcome);
    }

    /** `handleRename` on leaving the editor: the editor always closes; an
        unchanged name sends nothing and shows nothing; otherwise one `update`
        call keyed by the device's id, after which a confirmed name is kept and
        the parent asked to refresh, and a refused one reverts to the device's. */
    method Rename(outcome: Outcome<Device>)
      modifies this`editing, this`name, this`calls, this`notices, this`refreshes
      ensures !editing
      ensures old(name) == device.name ==>
        name == old(name) && calls == old(calls) && notices == old(notices) && refreshes == old(refreshes)
      ensures old(name) != device.name ==>
        calls == old(calls) + [UpdateDevice(device.id, old(name))] &&
        (outcome.Success? ==>
          name == old(name) &&
          notices == old(notices) + [SuccessNotice("Renamed to " + old(name))] &&
          refreshes == old(refreshes) + [true]) &&
        (outcome.Failure? ==>
          name == device.name &&
          notices == old(notices) + [ErrorNotice(RenameFailed)] &&
          refreshes == old(refreshes))
    {
      editing := false;
      if name != device.name {
        calls := calls + [UpdateDevice(device.id, name)];
        match outcome {
          case Success(_) =>
            notices := notices + [SuccessNotice("Renamed to " + name)];
            refreshes := refreshes + [true];
          case Failure =>
            notices := notices + [ErrorNotice(RenameFailed)];
            name := device.name;
        }
      }
    }
  }

  /** A card mounted on a record without a switch keeps its absent local
      switch when the parent later passes a controller record, since local
      state is initialised only on mount. Toggling that controller then asks
      for "on"; a refused request leaves the local switch absent and the busy
      flag off, and a confirmed one sets it to exactly `true`. */
  method ToggleAfterNewProps(ok: bool)
  {
    var sensor := Device("d2", "Fan2", Monitoring, None, Some(21.5), true, None);
    var fan := sensor.(mode := Controller, switch := Some(false));
    var card := new DeviceCard(sensor);
    card.ReceiveProps(fan);
    card.ToggleSwitch(if ok then Success(fan.(switch := Some(true))) else Failure);
    assert card.calls == [SetSwitch("Fan2", true)];
    assert !card.loadingSwitch;
    if ok {
      assert card.switchState == Some(true) && card.refreshes == [true];
    } else {
      assert card.switchState == None && card.refreshes == [];
    }
  }

  /** Renaming to the same name sends nothing; renaming to a new name that the
      registry refuses reverts the local name and does not refresh. */
  method RenameTwice(d: Device, other: string)
    requires other != d.name
  {
    var card := new DeviceCard(d);
    card.StartEditing();
    card.Rename(Success(d));
    assert card.calls == [] && card.notices == [] && !card.editing;
    card.StartEditing();
    card.EditName(other);
    card.Rename(Failure);
    assert card.calls == [UpdateDevice(d.id, other)];
    assert card.name == d.name && card.refreshes == [];
  }
}
