/** The microphone list (src/hooks/useAudioDevices.ts): which devices are
    kept, when a fresh enumeration replaces the list, and which device stays
    selected. What the browser enumerates is an input: the devices, or the
    message of the error the enumeration raised. */
module UseAudioDevices {
  import opened Wrappers

  /** A `MediaDeviceInfo`: its id and its kind. */
  datatype Device = Device(deviceId: string, kind: string)

  /** The kind of a microphone. */
  const AudioInput := "audioinput"
  /** The id browsers give the system's default device. */
  const DefaultId := "default"

  /** `allDevices.filter(device => device.kind === "audioinput")`. */
  function AudioInputs(all: seq<Device>): (r: seq<Device>)
    ensures forall d :: d in r <==> d in all && d.kind == AudioInput
    ensures |r| <= |all|
  {
    if all == [] then []
    else if all[0].kind == AudioInput then [all[0]] + AudioInputs(all[1..])
    else AudioInputs(all[1..])
  }

  /** Filtering keeps the enumeration order: it distributes over
      concatenation, and a single device is kept exactly when it is an audio
      input. */
  lemma {:induction false} AudioInputsAppend(a: seq<Device>, b: seq<Device>)
    ensures AudioInputs(a + b) == AudioInputs(a) + AudioInputs(b)
    ensures AudioInputs([]) == []
    ensures forall d :: AudioInputs([d]) == if d.kind == AudioInput then [d] else []
  {
    forall d ensures AudioInputs([d]) == if d.kind == AudioInput then [d] else [] {
      assert [d][1..] == [];
    }
    if a != [] {
      assert (a + b)[0] == a[0] && (a + b)[1..] == a[1..] + b;
      AudioInputsAppend(a[1..], b);
    } else {
      assert a + b == b;
    }
  }

  /** The first audio input kept is the first one enumerated. */
  lemma {:induction false} FirstAudioInput(all: seq<Device>, k: nat)
    requires k < |all| && all[k].kind == AudioInput
    requires forall j :: 0 <= j < k ==> all[j].kind != AudioInput
    ensures AudioInputs(all) != [] && AudioInputs(all)[0] == all[k]
  {
    if k > 0 {
      FirstAudioInput(all[1..], k - 1);
    }
  }

  /** `devices.map(d => d.deviceId)`. */
  function Ids(devices: seq<Device>): (r: seq<string>)
    ensures |r| == |devices| && forall k :: 0 <= k < |r| ==> r[k] == devices[k].deviceId
  {
    if devices == [] then [] else [devices[0].deviceId] + Ids(devices[1..])
  }

  /** JavaScript's default string order, taken here code point by code point
      (JavaScript compares UTF-16 code units), a proper prefix first. */
  predicate LexLeq(a: string, b: string) {
    if a == [] then true
    else if b == [] then false
    else if a[0] != b[0] then a[0] < b[0]
    else LexLeq(a[1..], b[1..])
  }

  /** Every string is ordered before itself. */
  lemma {:induction false} LexReflexive(a: string)
    ensures LexLeq(a, a)
  {
    if a != [] {
      LexReflexive(a[1..]);
    }
  }

  /** Any two strings are ordered one way or the other. */
  lemma {:induction false} LexTotal(a: string, b: string)
    ensures LexLeq(a, b) || LexLeq(b, a)
  {
    if a != [] && b != [] && a[0] == b[0] {
      LexTotal(a[1..], b[1..]);
    }
  }

  /** Strings ordered both ways are equal. */
  lemma {:induction false} LexAntisymmetric(a: string, b: string)
    requires LexLeq(a, b) && LexLeq(b, a)
    ensures a == b
  {
    if a != [] {
      LexAntisymmetric(a[1..], b[1..]);
      assert a == [a[0]] + a[1..] && b == [b[0]] + b[1..];
    }
  }

  /** The order is transitive. */
  lemma {:induction false} LexTransitive(a: string, b: string, c: string)
    requires LexLeq(a, b) && LexLeq(b, c)
    ensures LexLeq(a, c)
  {
    if a != [] && a[0] == b[0] && b[0] == c[0] {
      LexTransitive(a[1..], b[1..], c[1..]);
    }
  }

  /** `s` is in ascending order. */
  predicate Sorted(s: seq<string>) {
    forall i, j :: 0 <= i < j < |s| ==> LexLeq(s[i], s[j])
  }

  /** A list whose head precedes everything in its sorted tail is sorted. */
  lemma SortedCons(h: string, t: seq<string>)
    requires Sorted(t) && forall y :: y in t ==> LexLeq(h, y)
    ensures Sorted([h] + t)
  {
    forall i, j | 0 <= i < j < |[h] + t|
      ensures LexLeq(([h] + t)[i], ([h] + t)[j])
    {
      assert ([h] + t)[j] == t[j - 1];
      if i > 0 {
        assert ([h] + t)[i] == t[i - 1];
      }
    }
  }

  /** `x` placed into the sorted `s` before the first element it precedes. */
  function Insert(x: string, s: seq<string>): (r: seq<string>)
    requires Sorted(s)
    ensures Sorted(r) && multiset(r) == multiset(s) + multiset{x}
    ensures forall y :: y in r ==> y == x || y in s
  {
    if s == [] then [x]
    else if LexLeq(x, s[0]) then
      assert forall y :: y in s ==> LexLeq(x, y) by {
        forall y | y in s
          ensures LexLeq(x, y)
        {
          var j :| 0 <= j < |s| && s[j] == y;
          if j > 0 {
            LexTransitive(x, s[0], s[j]);
          }
        }
      }
      SortedCons(x, s);
      [x] + s
    else
      var rest := Insert(x, s[1..]);
      assert s == [s[0]] + s[1..];
      LexTotal(x, s[0]);
      assert forall y :: y in rest ==> LexLeq(s[0], y);
      SortedCons(s[0], rest);
      [s[0]] + rest
  }

  /** `.sort()`: the same strings, in ascending order. */
  function Sort(s: seq<string>): (r: seq<string>)
    ensures Sorted(r) && multiset(r) == multiset(s)
  {
    if s == [] then []
    else
      assert s == [s[0]] + s[1..];
      Insert(s[0], Sort(s[1..]))
  }

  /** The tail of a sorted list is sorted. */
  lemma SortedTail(s: seq<string>)
    requires s != [] && Sorted(s)
    ensures Sorted(s[1..])
  {
    forall i, j | 0 <= i < j < |s| - 1
      ensures LexLeq(s[1..][i], s[1..][j])
    {
      assert s[1..][i] == s[i + 1] && s[1..][j] == s[j + 1];
    }
  }

  /** Two ascending lists with the same elements start alike. */
  lemma SortedHeadsEqual(a: seq<string>, b: seq<string>)
    requires a != [] && Sorted(a) && Sorted(b) && multiset(a) == multiset(b)
    ensures b != [] && a[0] == b[0]
  {
    assert a[0] in multiset(a);
    assert a[0] in multiset(b) && b[0] in multiset(a);
    var i :| 0 <= i < |b| && b[i] == a[0];
    var j :| 0 <= j < |a| && a[j] == b[0];
    LexReflexive(a[0]);
    assert LexLeq(b[0], a[0]) && LexLeq(a[0], b[0]);
    LexAntisymmetric(a[0], b[0]);
  }

  /** Lists with the same elements and the same head have tails with the
      same elements. */
  lemma SameTails(a: seq<string>, b: seq<string>)
    requires a != [] && b != [] && a[0] == b[0] && multiset(a) == multiset(b)
    ensures multiset(a[1..]) == multiset(b[1..])
  {
    assert a == [a[0]] + a[1..] && b == [b[0]] + b[1..];
    assert multiset(a[1..]) == multiset(a) - multiset{a[0]};
    assert multiset(b[1..]) == multiset(b) - multiset{b[0]};
  }

  /** Two ascending lists with the same elements are the same list. */
  lemma {:induction false} SortedUnique(a: seq<string>, b: seq<string>)
    requires Sorted(a) && Sorted(b) && multiset(a) == multiset(b)
    ensures a == b
    decreases |a|
  {
    if a != [] {
      SortedHeadsEqual(a, b);
      SameTails(a, b);
      SortedTail(a);
      SortedTail(b);
      SortedUnique(a[1..], b[1..]);
      assert a == [a[0]] + a[1..] && b == [b[0]] + b[1..];
    }
  }

  /** `hasChanged`: the sorted id lists differ in length or at some position. */
  predicate HasChanged(current: seq<Device>, incoming: seq<Device>) {
    var currentIds := Sort(Ids(current));
    var newIds := Sort(Ids(incoming));
    |currentIds| != |newIds| || exists k :: 0 <= k < |currentIds| && currentIds[k] != newIds[k]
  }

  /** A change is exactly a difference in the ids present, counted with
      repetition: order does not matter, a swapped device does. */
  lemma HasChangedIffIdsDiffer(current: seq<Device>, incoming: seq<Device>)
    ensures HasChanged(current, incoming) <==> multiset(Ids(current)) != multiset(Ids(incoming))
  {
    var a := Sort(Ids(current));
    var b := Sort(Ids(incoming));
    if multiset(Ids(current)) == multiset(Ids(incoming)) {
      SortedUnique(a, b);
    } else {
      assert a != b;
      if |a| == |b| {
        var k :| 0 <= k < |a| && a[k] != b[k];
      }
    }
  }

  /** The first device with id `id`, if any. */
  function FindById(devices: seq<Device>, id: string): (r: Option<Device>)
    ensures r.None? <==> forall k :: 0 <= k < |devices| ==> devices[k].deviceId != id
    ensures r.Some? ==> r.value in devices && r.value.deviceId == id
  {
    if devices == [] then None
    else if devices[0].deviceId == id then Some(devices[0])
    else FindById(devices[1..], id)
  }

  /** The initial pick: the default device if present, otherwise the first. */
  function InitialPick(inputs: seq<Device>): (id: string)
    requires inputs != []
    ensures (exists k :: 0 <= k < |inputs| && inputs[k].deviceId == DefaultId) ==> id == DefaultId
    ensures (forall k :: 0 <= k < |inputs| ==> inputs[k].deviceId != DefaultId) ==> id == inputs[0].deviceId
  {
    match FindById(inputs, DefaultId)
    case Some(device) => device.deviceId
    case None => inputs[0].deviceId
  }

  /** The hook's state. */
  class AudioDevices {
    /** The microphones on offer. */
    var devices: seq<Device>
    /** The chosen microphone's id. */
    var selectedDeviceId: string
    /** Whether an update is under way. */
    var isUpdating: bool
    /** The message of the last enumeration error, if any. */
    var error: Option<string>

    /** The initial state: no devices, the default device selected. */
    constructor ()
      ensures devices == [] && selectedDeviceId == DefaultId && !isUpdating && error == None
    {
      devices := [];
      selectedDeviceId := DefaultId;
      isUpdating := false;
      error := None;
    }

    /** `setSelectedDeviceId`. */
    method SetSelectedDeviceId(id: string)
      modifies this`selectedDeviceId
      ensures selectedDeviceId == id
    {
      selectedDeviceId := id;
    }

    /** `getInitialDevices`: the microphones found become the list and the
        default one, or else the first, is selected; a failure (of the
        permission request or of the enumeration) empties the list. */
    method LoadInitialDevices(enumerated: Result<seq<Device>, string>)
      modifies this`devices, this`selectedDeviceId, this`error
      ensures enumerated.Failure? ==>
                devices == [] && error == Some(enumerated.error) && selectedDeviceId == old(selectedDeviceId)
      ensures enumerated.Success? ==>
                var inputs := AudioInputs(enumerated.value);
                && devices == inputs && error == None
                && selectedDeviceId == (if inputs != [] then InitialPick(inputs) else old(selectedDeviceId))
    {
      match enumerated
      case Failure(message) =>
        error := Some(message);
        devices := [];
      case Success(all) =>
        var inputs := AudioInputs(all);
        devices := inputs;
        error := None;
        if |inputs| > 0 {
          var defaultDevice := match FindById(inputs, DefaultId)
            case Some(device) => device
            case None => inputs[0];
          selectedDeviceId := defaultDevice.deviceId;
        }
    }

    /** `updateDevices`: the list is replaced, and the call answers true,
        exactly when the microphones changed or the list was empty; a
        selection that is gone falls back to the default device; a failure
        empties the list and answers false. */
    method UpdateDevices(enumerated: Result<seq<Device>, string>) returns (replaced: bool)
      modifies this
      ensures !isUpdating
      ensures enumerated.Failure? ==>
                && !replaced && devices == [] && error == Some(enumerated.error)
                && selectedDeviceId == old(selectedDeviceId)
      ensures enumerated.Success? ==>
                var inputs := AudioInputs(enumerated.value);
                && replaced == (HasChanged(old(devices), inputs) || old(devices) == [])
                && (replaced ==> devices == inputs && error == None
                                 && selectedDeviceId == (if old(selectedDeviceId) != DefaultId
                                                           && FindById(inputs, old(selectedDeviceId)).None?
                                                         then DefaultId else old(selectedDeviceId)))
                && (!replaced ==> devices == old(devices) && error == old(error)
                                  && selectedDeviceId == old(selectedDeviceId))
    {
      isUpdating := true;
      match enumerated {
      case Failure(message) =>
        error := Some(message);
        devices := [];
        replaced := false;
      case Success(all) =>
        var audioInputs := AudioInputs(all);
        var currentDeviceIds := Sort(Ids(devices));
        var newDeviceIds := Sort(Ids(audioInputs));
        var hasChanged := |currentDeviceIds| != |newDeviceIds|
                          || exists k :: 0 <= k < |currentDeviceIds| && currentDeviceIds[k] != newDeviceIds[k];
        if hasChanged || |devices| == 0 {
          devices := audioInputs;
          error := None;
          if selectedDeviceId != DefaultId && FindById(audioInputs, selectedDeviceId).None? {
            selectedDeviceId := DefaultId;
          }
          replaced := true;
        } else {
          replaced := false;
        }
      }
      isUpdating := false;
    }
  }

  /** After a replacing update the selection is the default device or one of
      the new microphones. */
  lemma SelectionStaysValid(inputs: seq<Device>, selected: string)
    ensures var next := if selected != DefaultId && FindById(inputs, selected).None? then DefaultId else selected;
            next == DefaultId || exists k :: 0 <= k < |inputs| && inputs[k].deviceId == next
  {
  }

  /** A second update that finds the same microphones, in any order, leaves
      everything as it was and answers false. */
  method ReorderedIsNoChange(first: seq<Device>, second: seq<Device>, selected: string)
    returns (replacedFirst: bool, replacedSecond: bool, unchangedList: bool)
    requires multiset(Ids(AudioInputs(first))) == multiset(Ids(AudioInputs(second)))
    requires AudioInputs(first) != []
    ensures replacedFirst && !replacedSecond && unchangedList
  {
    var hook := new AudioDevices();
    hook.SetSelectedDeviceId(selected);
    replacedFirst := hook.UpdateDevices(Success(first));
    var before := hook.devices;
    HasChangedIffIdsDiffer(before, AudioInputs(second));
    replacedSecond := hook.UpdateDevices(Success(second));
    unchangedList := hook.devices == before;
  }
}
