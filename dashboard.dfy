/** The dashboard page: the canonical device list, the connectivity state,
    the filter and the inline rename editor, with the handlers that poll the
    registry and send mutations to it. Every registry call is recorded in
    `calls` and answered by an outcome parameter; every toast is appended to
    `notices`. */
module Pages {
  import opened Registry
  import opened Sync
  import opened Projection

  const AddFailed: string := "Failed to add device. server went offline."
  const ToggleFailed: string := "Failed to toggle switch."
  const DeleteFailed: string := "Failed to delete device."
  const RenameFailed: string := "Rename failed."

  class Dashboard {
    var devices: seq<Device>
    var loading: bool
    var error: Option<string>
    var filter: string
    var editingName: Option<string>
    var newName: string
    ghost var calls: seq<Call>
    ghost var notices: seq<Notice>

    /** The state a poll reads and writes. */
    ghost function Snap(): Snapshot
      reads this
    {
      Snapshot(devices, loading, error, notices)
    }

    /** While the registry is unreachable the page holds no devices. */
    ghost predicate Valid()
      reads this
    {
      Consistent(Snap())
    }

    /** The first render: an empty list, the spinner on, no error, filter "all",
        no row being renamed. */
    constructor ()
      ensures Valid()
      ensures devices == [] && loading && error == None && filter == "all"
      ensures editingName == None && newName == ""
      ensures calls == [] && notices == []
    {
      devices, loading, error, filter := [], true, None, "all";
      editingName, newName := None, "";
      calls, notices := [], [];
    }

    /** `loadDevices(silent)`: one `list` call whose outcome drives the
        connectivity machine; the filter and the editor are left alone. */
    method LoadDevices(silent: bool, outcome: Outcome<seq<Device>>)
      requires Valid()
      modifies this
      ensures Valid()
      ensures Snap() == Load(old(Snap()), silent, outcome)
      ensures calls == old(calls) + [ListDevices]
      ensures filter == old(filter) && editingName == old(editingName) && newName == old(newName)
    {
      if !silent {
        loading := true;
      }
      calls := calls + [ListDevices];
      match outcome {
        case Success(data) =>
          devices := data;
          if error.Some? {
            notices := notices + [SuccessNotice(Reconnected)];
          }
          error := None;
        case Failure =>
          if error.None? {
            notices := notices + [ErrorNotice(Unreachable)];
          }
          error := Some(Unreachable);
          devices := [];
      }
      if !silent {
        loading := false;
      }
    }

    /** The 2 s steady poll, silent, reading the current `error`. */
    method SteadyTick(outcome: Outcome<seq<Device>>)
      requires Valid()
      modifies this
      ensures Valid()
      ensures Snap() == Load(old(Snap()), true, outcome)
      ensures calls == old(calls) + [ListDevices]
      ensures filter == old(filter) && editingName == old(editingName) && newName == old(newName)
    {
      LoadDevices(true, outcome);
    }

    /** The 3 s recovery poll: a visible poll, issued only while an error is held. */
    method RecoveryTick(outcome: Outcome<seq<Device>>)
      requires Valid()
      modifies this
      ensures Valid()
      ensures old(error).None? ==> Snap() == old(Snap()) && calls == old(calls)
      ensures old(error).Some? ==> Snap() == Load(old(Snap()), false, outcome) && calls == old(calls) + [ListDevices]
      ensures filter == old(filter) && editingName == old(editingName) && newName == old(newName)
    {
      if error.Some? {
        LoadDevices(false, outcome);
      }
    }

    /** `handleAddDevice`: one `create` call; on success a silent reload
        (answered by `reload`), on failure an error toast and nothing else. */
    method AddDevice(outcome: Outcome<Device>, reload: Outcome<seq<Device>>)
      requires Valid()
      modifies this
      ensures Valid()
      ensures outcome.Success? ==>
        Snap() == Load(old(Snap()), true, reload) && calls == old(calls) + [CreateDevice, ListDevices]
      ensures outcome.Failure? ==>
        Snap() == old(Snap()).(notices := old(notices) + [ErrorNotice(AddFailed)]) &&
        calls == old(calls) + [CreateDevice]
      ensures filter == old(filter) && editingName == old(editingName) && newName == old(newName)
    {
      calls := calls + [CreateDevice];
      match outcome
      case Success(_) =>
        LoadDevices(true, reload);
      case Failure =>
        notices := notices + [ErrorNotice(AddFailed)];
    }

    /** `handleToggleSwitch(record)`: asks the registry, by the record's name,
        for the opposite of the switch the record shows. The list is never
        flipped here: on success only the silent reload replaces it, and on
        failure it stays exactly as it was. */
    method ToggleSwitch(record: Device, outcome: Outcome<Device>, reload: Outcome<seq<Device>>)
      requires Valid()
      modifies this
      ensures Valid()
      ensures var desired := !SwitchOn(record);
        outcome.Success? ==>
          Snap() == Load(old(Snap()).(notices := old(notices) + [SuccessNotice("Switch turned " + OnOff(desired) + " for " + record.name)]), true, reload) &&
          calls == old(calls) + [SetSwitch(record.name, desired), ListDevices]
      ensures outcome.Failure? ==>
        Snap() == old(Snap()).(notices := old(notices) + [ErrorNotice(ToggleFailed)]) &&
        calls == old(calls) + [SetSwitch(record.name, !SwitchOn(record))]
      ensures filter == old(filter) && editingName == old(editingName) && newName == old(newName)
    {
      var newState := !SwitchOn(record);
      calls := calls + [SetSwitch(record.name, newState)];
      match outcome
      case Success(_) =>
        notices := notices + [SuccessNotice("Switch turned " + OnOff(newState) + " for " + record.name)];
        LoadDevices(true, reload);
      case Failure =>
        notices := notices + [ErrorNotice(ToggleFailed)];
    }

    /** `handleDelete(record)`: one `delete` call keyed by the record's name;
        the device stays listed until a poll no longer reports it. */
    method Delete(record: Device, outcome: Outcome<()>, reload: Outcome<seq<Device>>)
      requires Valid()
      modifies this
      ensures Valid()
      ensures outcome.Success? ==>
        Snap() == Load(old(Snap()).(notices := old(notices) + [SuccessNotice(record.name + " deleted")]), true, reload) &&
        calls == old(calls) + [DeleteDevice(record.name), ListDevices]
      ensures outcome.Failure? ==>
        Snap() == old(Snap()).(notices := old(notices) + [ErrorNotice(DeleteFailed)]) &&
        calls == old(calls) + [DeleteDevice(record.name)]
      ensures filter == old(filter) && editingName == old(editingName) && newName == old(newName)
    {
      calls := calls + [DeleteDevice(record.name)];
      match outcome
      case Success(_) =>
        notices := notices + [SuccessNotice(record.name + " deleted")];
        LoadDevices(true, reload);
      case Failure =>
        notices := notices + [ErrorNotice(DeleteFailed)];
    }

    /** The click on a name: opens the editor on that row with its current name. */
    method StartEdit(record: Device)
      modifies this
      ensures editingName == Some(record.id) && newName == record.name
      ensures Snap() == old(Snap()) && filter == old(filter) && calls == old(calls)
    {
      editingName := Some(record.id);
      newName := record.name;
    }

    /** Typing in the editor. */
    method EditNewName(text: string)
      modifies this
      ensures newName == text
      ensures Snap() == old(Snap()) && filter == old(filter) && editingName == old(editingName) && calls == old(calls)
    {
      newName := text;
    }

    /** Choosing a value in the filter selector. */
    method SetFilter(value: string)
      modifies this
      ensures filter == value
      ensures Snap() == old(Snap()) && editingName == old(editingName) && newName == old(newName) && calls == old(calls)
    {
      filter := value;
    }

    /** `handleRename(record)` on leaving the editor: always one `update` call
        keyed by the record's id carrying the edited name, even when it is
        unchanged. On success the editor closes and is cleared and a silent
        reload follows; on failure the editor keeps its row and text. */
    method Rename(record: Device, outcome: Outcome<Device>, reload: Outcome<seq<Device>>)
      requires Valid()
      modifies this
      ensures Valid()
      ensures outcome.Success? ==>
        Snap() == Load(old(Snap()).(notices := old(notices) + [SuccessNotice("Renamed to " + old(newName))]), true, reload) &&
        calls == old(calls) + [UpdateDevice(record.id, old(newName)), ListDevices] &&
        editingName == None && newName == ""
      ensures outcome.Failure? ==>
        Snap() == old(Snap()).(notices := old(notices) + [ErrorNotice(RenameFailed)]) &&
        calls == old(calls) + [UpdateDevice(record.id, old(newName))] &&
        editingName == old(editingName) && newName == old(newName)
      ensures filter == old(filter)
    {
      calls := calls + [UpdateDevice(record.id, newName)];
      match outcome
      case Success(_) =>
        notices := notices + [SuccessNotice("Renamed to " + newName)];
        editingName := None;
        newName := "";
        LoadDevices(true, reload);
      case Failure =>
        notices := notices + [ErrorNotice(RenameFailed)];
    }
  }

  /** A controller "Fan1", switched off and online, is toggled successfully and
      the following poll reports it switched on: the registry was asked for
      `true` by name, and the "switchOn" view now holds it while "switchOff"
      does not. */
  method ToggleFan()
  {
    var fan := Device("d1", "Fan1", Controller, Some(false), None, true, None);
    var fanOn := fan.(switch := Some(true));
    var page := new Dashboard();
    page.LoadDevices(false, Success([fan]));
    page.ToggleSwitch(fan, Success(fanOn), Success([fanOn]));
    assert page.calls == [ListDevices, SetSwitch("Fan1", true), ListDevices];
    assert page.devices == [fanOn];
    assert fanOn in FilteredDevices(page.devices, "switchOn");
    assert fanOn !in FilteredDevices(page.devices, "switchOff");
  }

  /** Whatever a page has been through, the invariant alone decides what it
      shows while it holds an error and is not loading: the unreachable
      banner, and no devices behind it. */
  method DegradedPageShowsBanner(page: Dashboard)
    requires page.Valid() && page.error.Some? && !page.loading
  {
    assert Render(page.loading, page.error, page.devices, page.filter) == Banner(Unreachable);
    assert page.devices == [];
  }

  /** Three steady polls fail: the page is Degraded, holds no devices, shows
      the banner, and has toasted "unreachable" once. */
  method OutageOfThreePolls(data: seq<Device>)
  {
    var page := new Dashboard();
    page.LoadDevices(false, Success(data));
    page.SteadyTick(Failure);
    page.SteadyTick(Failure);
    page.SteadyTick(Failure);
    assert page.error.Some? && page.devices == [];
    assert page.notices == [ErrorNotice(Unreachable)];
    assert Render(page.loading, page.error, page.devices, page.filter) == Banner(Unreachable);
  }
}
