/** Values shared by the dashboard page and the device card: the device record
    the registry reports, the outcome of a registry call, the registry calls
    themselves and the toast notifications shown to the operator. */
module Registry {

  datatype Option<+T> = None | Some(value: T)

  /** What one registry call came back with: its response data, or a request
      error (any failure: timeout, refusal, malformed response). */
  datatype Outcome<+T> = Success(data: T) | Failure

  datatype Mode = Controller | Monitoring

  /** One device as the registry lists it. `switch` is absent on records that
      carry no switch (monitoring devices); `sensorValue` and `lastOnline` are
      only displayed. */
  datatype Device = Device(
    id: string,
    name: string,
    mode: Mode,
    switch: Option<bool>,
    sensorValue: Option<real>,
    deviceStatus: bool,
    lastOnline: Option<string>)

  /** The truthiness of an optional boolean: only a present `true` is truthy. */
  predicate Truthy(b: Option<bool>)
  {
    b == Some(true)
  }

  /** Whether a device's `switch` field reads as on. */
  predicate SwitchOn(d: Device)
  {
    Truthy(d.switch)
  }

  function OnOff(on: bool): (t: string)
  {
    if on then "ON" else "OFF"
  }

  /** A request sent to the registry: which endpoint, with which key and value. */
  datatype Call =
    | ListDevices
    | CreateDevice
    | SetSwitch(name: string, state: bool)
    | UpdateDevice(id: string, newName: string)
    | DeleteDevice(name: string)

  /** A toast: a success message or an error message. */
  datatype Notice = SuccessNotice(text: string) | ErrorNotice(text: string)
}
