/** The dashboard's view of the device list: the filter selector's five
    values over the canonical list (`filteredDevices`), and the choice the
    page renders between the spinner, the connectivity banner and the table. */
module Projection {
  import opened Registry

  /** `a` is `b` with some elements left out and the rest kept in order. */
  predicate IsSubsequence(a: seq<Device>, b: seq<Device>)
    decreases |b|
  {
    a == [] || (b != [] && ((a[0] == b[0] && IsSubsequence(a[1..], b[1..])) || IsSubsequence(a, b[1..])))
  }

  /** Every list is a subsequence of itself. */
  lemma {:induction false} SubsequenceOfItself(s: seq<Device>)
    ensures IsSubsequence(s, s)
    decreases |s|
  {
    if s != [] {
      SubsequenceOfItself(s[1..]);
    }
  }

  /** `Array.prototype.filter`: the devices satisfying `p`, in their order. */
  function Keep(ds: seq<Device>, p: Device -> bool): (r: seq<Device>)
    ensures IsSubsequence(r, ds)
    ensures forall d :: multiset(r)[d] == if p(d) then multiset(ds)[d] else 0
    decreases |ds|
  {
    if ds == [] then []
    else
      var rest := Keep(ds[1..], p);
      assert ds == [ds[0]] + ds[1..];
      if p(ds[0]) then
        assert ([ds[0]] + rest)[1..] == rest;
        [ds[0]] + rest
      else rest
  }

  /** What each selector value keeps, as the selector describes it; any value
      other than the four named ones (and "all") keeps everything. */
  predicate Matches(filter: string, d: Device)
  {
    match filter
    case "online" => d.deviceStatus
    case "offline" => !d.deviceStatus
    case "switchOn" => SwitchOn(d)
    case "switchOff" => !SwitchOn(d)
    case _ => true
  }

  predicate Recognised(filter: string)
  {
    filter in {"online", "offline", "switchOn", "switchOff"}
  }

  /** The rows the table shows: exactly the devices the filter matches, each
      as often as in `devices`, in their order. */
  function FilteredDevices(devices: seq<Device>, filter: string): (r: seq<Device>)
    ensures IsSubsequence(r, devices)
    ensures forall d :: multiset(r)[d] == if Matches(filter, d) then multiset(devices)[d] else 0
    ensures forall d :: d in r <==> d in devices && Matches(filter, d)
    ensures !Recognised(filter) ==> r == devices
  {
    match filter
    case "online" => Keep(devices, (d: Device) => d.deviceStatus)
    case "offline" => Keep(devices, (d: Device) => !d.deviceStatus)
    case "switchOn" => Keep(devices, (d: Device) => SwitchOn(d))
    case "switchOff" => Keep(devices, (d: Device) => !SwitchOn(d))
    case _ =>
      SubsequenceOfItself(devices);
      devices
  }

  /** Two selector values that split the list: every device is kept by
      exactly one of them, so together they hold the list once over. */
  lemma Partition(devices: seq<Device>, on: string, off: string)
    requires (on, off) in {("online", "offline"), ("switchOn", "switchOff")}
    ensures var a := FilteredDevices(devices, on); var b := FilteredDevices(devices, off);
      multiset(a) + multiset(b) == multiset(devices) && |a| + |b| == |devices|
  {
    var a := FilteredDevices(devices, on);
    var b := FilteredDevices(devices, off);
    assert multiset(a) + multiset(b) == multiset(devices) by {
      forall d ensures (multiset(a) + multiset(b))[d] == multiset(devices)[d] {
      }
    }
    assert |multiset(a) + multiset(b)| == |multiset(devices)|;
  }

  /** A device without a switch that reads as on (a monitoring device, whose
      record has no switch) is listed under "switchOff" and not "switchOn". */
  lemma SwitchlessIsOff(devices: seq<Device>, d: Device)
    requires d in devices && !SwitchOn(d)
    ensures d in FilteredDevices(devices, "switchOff") && d !in FilteredDevices(devices, "switchOn")
  {
  }

  /** Keeping twice by the same test keeps the same devices as keeping once. */
  lemma {:induction false} KeepTwice(ds: seq<Device>, p: Device -> bool)
    ensures Keep(Keep(ds, p), p) == Keep(ds, p)
    decreases |ds|
  {
    if ds != [] {
      KeepTwice(ds[1..], p);
      if p(ds[0]) {
        var rest := Keep(ds[1..], p);
        assert ([ds[0]] + rest)[1..] == rest;
      }
    }
  }

  /** Filtering the already filtered view changes nothing: the view is a
      stable re-derivation. */
  lemma FilterStable(devices: seq<Device>, filter: string)
    ensures FilteredDevices(FilteredDevices(devices, filter), filter) == FilteredDevices(devices, filter)
  {
    match filter
    case "online" => KeepTwice(devices, (d: Device) => d.deviceStatus);
    case "offline" => KeepTwice(devices, (d: Device) => !d.deviceStatus);
    case "switchOn" => KeepTwice(devices, (d: Device) => SwitchOn(d));
    case "switchOff" => KeepTwice(devices, (d: Device) => !SwitchOn(d));
    case _ =>
  }

  /** What the page shows in place of its body. */
  datatype Screen = Spinner | Banner(message: string) | Table(rows: seq<Device>)

  /** The spinner while loading, else the banner while an error is held (it
      replaces the list entirely), else the table of the filtered devices.
      The page tests the truthiness of `error`; an error is here any `Some`,
      which agrees because the only message the page ever stores is the
      non-empty unreachable text (see `Sync.Consistent`). */
  function Render(loading: bool, error: Option<string>, devices: seq<Device>, filter: string): (v: Screen)
    ensures v.Spinner? <==> loading
    ensures v.Banner? <==> !loading && error.Some?
    ensures v.Banner? ==> v.message == error.value
    ensures v.Table? ==> v.rows == FilteredDevices(devices, filter)
  {
    if loading then Spinner
    else if error.Some? then Banner(error.value)
    else Table(FilteredDevices(devices, filter))
  }
}
