/**
 * android-sensor-server.js: the bookkeeping of the sensor relay. It covers
 * the static-file content types and request paths, the connection role read
 * from the query string, the parsing of `adb devices` output, and the module
 * state: the two client sets and the legacy `connectedDevice`. The HTTP and
 * WebSocket servers, `exec`, timers and the sensor readings themselves are
 * outside the model. A socket is an opaque identifier, JavaScript's `null`
 * is `None`, and a `Set` is a sequence without repeats in insertion order.
 */
module SensorServer {
  import opened Wrappers
  import opened JsValues

  // ---------------------------------------------------------------------------
  // Static files
  // ---------------------------------------------------------------------------

  const OctetStream := "application/octet-stream"

  /** The extensions `getContentType` knows, with their media types. */
  const MediaTypes: map<string, string> := map[
    ".html" := "text/html; charset=utf-8",
    ".css" := "text/css; charset=utf-8",
    ".js" := "application/javascript; charset=utf-8",
    ".png" := "image/png",
    ".jpg" := "image/jpeg",
    ".jpeg" := "image/jpeg",
    ".gif" := "image/gif",
    ".svg" := "image/svg+xml",
    ".mp3" := "audio/mpeg"]

  /** `getContentType(ext)`: the `switch` over the lower-cased extension. */
  function ContentType(ext: string): (t: string)
    ensures t == "image/jpeg" <==> ext == ".jpg" || ext == ".jpeg"
  {
    if ext == ".html" then "text/html; charset=utf-8"
    else if ext == ".css" then "text/css; charset=utf-8"
    else if ext == ".js" then "application/javascript; charset=utf-8"
    else if ext == ".png" then "image/png"
    else if ext == ".jpg" || ext == ".jpeg" then "image/jpeg"
    else if ext == ".gif" then "image/gif"
    else if ext == ".svg" then "image/svg+xml"
    else if ext == ".mp3" then "audio/mpeg"
    else OctetStream
  }

  /** The `switch` agrees with the table, and every other extension is served as an octet stream. */
  lemma {:induction false} ContentTypeTable(ext: string)
    ensures ext in MediaTypes ==> ContentType(ext) == MediaTypes[ext]
    ensures ext !in MediaTypes <==> ContentType(ext) == OctetStream
  {
    assert ext in MediaTypes ==> MediaTypes[ext] != OctetStream;
  }

  const DebugPage := "/android-sensor-debug.html"

  /**
   * The path the file server looks up for `req.url`: the text before the
   * first `?`, with `/` and the empty path replaced by the debug page.
   * `decodeURI` is not modelled.
   */
  function RequestPath(url: string): (p: string)
    ensures '?' !in p && p != "" && p != "/"
    ensures p == DebugPage || StartsWith(url, p)
    ensures '?' !in url && url != "" && url != "/" ==> p == url
    ensures StartsWith(url, "/?") ==> p == DebugPage
  {
    var path := Split(url, '?')[0];
    SplitFirst(url, '?');
    assert StartsWith(url, "/?") ==> path == "/" by {
      if StartsWith(url, "/?") {
        assert url[..2] == "/?";
        assert url[..1] == "/";
        IndexOfIs(url, '?', 1);
      }
    }
    if path == "/" || path == "" then DebugPage else path
  }

  // ---------------------------------------------------------------------------
  // The connection role
  // ---------------------------------------------------------------------------

  /** The name of a query pair: the text before its first `=`, or the whole pair. */
  function PairName(pair: string): (name: string)
    ensures '=' !in name && StartsWith(pair, name)
  {
    match IndexOf(pair, '=')
    case None => pair
    case Some(i) => pair[..i]
  }

  /** The value of a query pair: the text after its first `=`, or empty. */
  function PairValue(pair: string): string
  {
    match IndexOf(pair, '=')
    case None => ""
    case Some(i) => pair[i + 1..]
  }

  /** A pair written `name=value` reads back as that name and that value. */
  lemma {:induction false} PairRoundTrip(name: string, value: string)
    requires '=' !in name
    ensures PairName(name + "=" + value) == name && PairValue(name + "=" + value) == value
  {
    var pair := name + "=" + value;
    assert pair[|name|] == '=';
    assert pair[..|name|] == name;
    IndexOfIs(pair, '=', |name|);
    assert pair[|name| + 1..] == value;
  }

  /** The index of the first pair named `name`, as `URLSearchParams.get` picks it. */
  function FindPair(pairs: seq<string>, name: string): (r: Option<nat>)
    ensures r.Some? ==> r.value < |pairs| && PairName(pairs[r.value]) == name
    ensures r.Some? ==> forall j :: 0 <= j < r.value ==> PairName(pairs[j]) != name
    ensures r.None? ==> forall j :: 0 <= j < |pairs| ==> PairName(pairs[j]) != name
  {
    if |pairs| == 0 then None
    else if PairName(pairs[0]) == name then Some(0)
    else
      match FindPair(pairs[1..], name)
      case None => None
      case Some(i) => Some(i + 1)
  }

  /** The query string of a request URL: after the first `?` and before any `#`. */
  function Query(url: string): Option<string>
  {
    var beforeHash := Split(url, '#')[0];
    match IndexOf(beforeHash, '?')
    case None => None
    case Some(i) => Some(beforeHash[i + 1..])
  }

  /**
   * `url.searchParams.get(name)` for `new URL(req.url, 'http://localhost')`.
   * Percent-decoding and `+` as a space are not modelled.
   */
  function QueryParam(url: string, name: string): (v: Option<string>)
    ensures Query(url).None? ==> v.None?
  {
    match Query(url)
    case None => None
    case Some(query) =>
      var pairs := Split(query, '&');
      match FindPair(pairs, name)
      case None => None
      case Some(i) => Some(PairValue(pairs[i]))
  }

  const DefaultRole := "desktop"

  /**
   * The connection role. `parses` says whether `new URL(url, 'http://localhost')`
   * succeeds (the URL parser is not part of this model); when it throws the
   * role is `'desktop'`, otherwise the `role` parameter, or `'desktop'` when
   * that is missing or empty.
   */
  function Role(url: string, parses: bool): (role: string)
    ensures role != ""
    ensures !parses ==> role == DefaultRole
    ensures QueryParam(url, "role").None? ==> role == DefaultRole
    ensures QueryParam(url, "role") == Some("") ==> role == DefaultRole
    ensures parses && QueryParam(url, "role").Some? && QueryParam(url, "role").value != "" ==> role == QueryParam(url, "role").value
  {
    if !parses then DefaultRole
    else
      match QueryParam(url, "role")
      case Some(v) => if v != "" then v else DefaultRole
      case None => DefaultRole
  }

  /** A URL with no query string connects as a desktop. */
  lemma {:induction false} NoQueryDesktop(url: string, parses: bool)
    requires '?' !in url
    ensures Role(url, parses) == DefaultRole
  {
    var beforeHash := Split(url, '#')[0];
    SplitFirst(url, '#');
    assert '?' !in beforeHash by {
      forall k | 0 <= k < |beforeHash|
        ensures beforeHash[k] != '?'
      {
        assert beforeHash[k] == url[k];
      }
    }
  }

  /** The query string of `path?query` is `query`. */
  lemma {:induction false} QueryOf(path: string, query: string)
    requires '?' !in path && '#' !in path && '#' !in query
    ensures Query(path + "?" + query) == Some(query)
  {
    var url := path + "?" + query;
    assert '#' !in url;
    SplitFirst(url, '#');
    assert url[|path|] == '?';
    assert url[..|path|] == path;
    IndexOfIs(url, '?', |path|);
    assert url[|path| + 1..] == query;
  }

  /** `path?role=x` connects with role `x` when the URL parses, and as a desktop when it does not. */
  lemma {:induction false} RoleQuery(path: string, role: string, parses: bool)
    requires '?' !in path && '#' !in path
    requires role != "" && '&' !in role && '#' !in role
    ensures Role(path + "?role=" + role, parses) == if parses then role else DefaultRole
  {
    var pair := "role" + "=" + role;
    var url := path + "?" + pair;
    assert path + "?role=" + role == url;
    QueryOf(path, pair);
    assert '&' !in "role=";
    assert '&' !in pair;
    SplitFirst(pair, '&');
    var pairs := Split(pair, '&');
    assert pairs == [pair];
    PairRoundTrip("role", role);
    assert FindPair(pairs, "role") == Some(0);
    assert QueryParam(url, "role") == Some(PairValue(pair));
  }

  // ---------------------------------------------------------------------------
  // `adb devices`
  // ---------------------------------------------------------------------------

  /** A line of `adb devices` output that `detectDevices` keeps. */
  predicate Listed(line: string)
  {
    line != "" && !StartsWith(line, "*") && Contains(line, "device")
  }

  /** The device serial of a line: the text before its first tab. */
  function Serial(line: string): (id: string)
    ensures '\t' !in id && StartsWith(line, id)
  {
    SplitFirst(line, '\t');
    Split(line, '\t')[0]
  }

  /** `lines.filter(Listed).map(Serial)`. */
  function ListedSerials(lines: seq<string>): (ids: seq<string>)
    ensures |ids| <= |lines|
    ensures forall k :: 0 <= k < |ids| ==> '\t' !in ids[k]
  {
    if |lines| == 0 then []
    else if Listed(lines[0]) then [Serial(lines[0])] + ListedSerials(lines[1..])
    else ListedSerials(lines[1..])
  }

  /** Filtering and mapping line by line: the serials of two blocks of lines are concatenated. */
  lemma {:induction false} ListedSerialsAppend(a: seq<string>, b: seq<string>)
    ensures ListedSerials(a + b) == ListedSerials(a) + ListedSerials(b)
  {
    if |a| > 0 {
      assert (a + b)[0] == a[0];
      assert (a + b)[1..] == a[1..] + b;
      ListedSerialsAppend(a[1..], b);
    } else {
      assert a + b == b;
    }
  }

  /** Every serial comes from a listed line, and every listed line gives its serial. */
  lemma {:induction false} ListedSerialsMembers(lines: seq<string>, id: string)
    ensures id in ListedSerials(lines) <==> exists line :: line in lines && Listed(line) && Serial(line) == id
  {
    if |lines| > 0 {
      ListedSerialsMembers(lines[1..], id);
      assert lines == [lines[0]] + lines[1..];
      if exists line :: line in lines && Listed(line) && Serial(line) == id {
        var line :| line in lines && Listed(line) && Serial(line) == id;
        if line != lines[0] {
          assert line in lines[1..];
        }
      }
    }
  }

  /** The serials `detectDevices` parses from `adb devices` output, the header line skipped. */
  function ParseDevices(stdout: string): (ids: seq<string>)
    ensures |ids| < |Split(stdout, '\n')|
  {
    ListedSerials(Split(stdout, '\n')[1..])
  }

  /** A serial that does not name an emulator. */
  predicate RealDevice(id: string)
  {
    !Contains(id, "emulator")
  }

  /** `devices.filter(device => !device.includes('emulator'))`. */
  function RealDevices(devices: seq<string>): (kept: seq<string>)
    ensures |kept| <= |devices|
    ensures forall d :: d in kept <==> d in devices && RealDevice(d)
  {
    if |devices| == 0 then []
    else if RealDevice(devices[0]) then [devices[0]] + RealDevices(devices[1..])
    else RealDevices(devices[1..])
  }

  /**
   * The devices `detectDevices` resolves: the real devices when there is at
   * least one, otherwise every device.
   */
  function PreferReal(devices: seq<string>): (chosen: seq<string>)
    ensures |chosen| == 0 <==> |devices| == 0
    ensures (exists d :: d in devices && RealDevice(d)) ==>
      (forall d :: d in chosen <==> d in devices && RealDevice(d))
    ensures (forall d :: d in devices ==> !RealDevice(d)) ==> chosen == devices
  {
    var realOnes := RealDevices(devices);
    if |realOnes| > 0 then
      assert realOnes[0] in devices;
      realOnes
    else
      assert realOnes == [];
      devices
  }

  /** The filter keeps the order of `adb devices`: filtering distributes over concatenation. */
  lemma {:induction false} RealDevicesAppend(a: seq<string>, b: seq<string>)
    ensures RealDevices(a + b) == RealDevices(a) + RealDevices(b)
    decreases |a|
  {
    if |a| > 0 {
      assert (a + b)[0] == a[0];
      assert (a + b)[1..] == a[1..] + b;
      RealDevicesAppend(a[1..], b);
    } else {
      assert a + b == b;
    }
  }

  /** With no real device among them, the filter keeps nothing. */
  lemma {:induction false} NoRealDevices(devices: seq<string>)
    requires forall j :: 0 <= j < |devices| ==> !RealDevice(devices[j])
    ensures RealDevices(devices) == []
    decreases |devices|
  {
    if |devices| > 0 {
      NoRealDevices(devices[1..]);
    }
  }

  /**
   * When some device is real, the device the poller connects to (the first
   * one `detectDevices` resolves) is the first real device in `adb` order.
   */
  lemma {:induction false} FirstRealDevice(devices: seq<string>, i: nat)
    requires i < |devices| && RealDevice(devices[i])
    requires forall j :: 0 <= j < i ==> !RealDevice(devices[j])
    ensures |PreferReal(devices)| > 0 && PreferReal(devices)[0] == devices[i]
  {
    assert devices == devices[..i] + devices[i..];
    RealDevicesAppend(devices[..i], devices[i..]);
    NoRealDevices(devices[..i]);
    assert RealDevices(devices[i..]) == [devices[i]] + RealDevices(devices[i + 1..]);
  }

  /** `detectDevices()` on the output of `adb devices`. */
  function DetectDevices(stdout: string): (ids: seq<string>)
    ensures forall k :: 0 <= k < |ids| ==> '\t' !in ids[k]
  {
    var parsed := ParseDevices(stdout);
    var chosen := PreferReal(parsed);
    assert forall k :: 0 <= k < |chosen| ==> chosen[k] in parsed;
    chosen
  }

  /** A string ending in `sub` contains it. */
  lemma {:induction false} ContainsSuffix(a: string, sub: string)
    ensures Contains(a + sub, sub)
    decreases |a|
  {
    if |a| > 0 {
      assert (a + sub)[1..] == a[1..] + sub;
      ContainsSuffix(a[1..], sub);
    } else {
      assert a + sub == sub;
    }
  }

  /** A string without the first letter of `sub` does not contain `sub`. */
  lemma {:induction false} NotContains(s: string, sub: string)
    requires |sub| > 0 && sub[0] !in s
    ensures !Contains(s, sub)
    decreases |s|
  {
    if |s| > 0 {
      assert sub[0] !in s[1..] by {
        forall k | 0 <= k < |s[1..]|
          ensures s[1..][k] != sub[0]
        {
          assert s[1..][k] == s[k + 1];
        }
      }
      NotContains(s[1..], sub);
      if |sub| <= |s| {
        assert s[..|sub|][0] == s[0];
      }
    }
  }

  /** A line `serial<TAB>device` is kept, and its serial is read back. */
  lemma {:induction false} DeviceLine(serial: string)
    requires '\t' !in serial && !StartsWith(serial, "*")
    ensures Listed(serial + "\tdevice") && Serial(serial + "\tdevice") == serial
  {
    var line := serial + "\tdevice";
    assert line == (serial + "\t") + "device";
    ContainsSuffix(serial + "\t", "device");
    assert !StartsWith(line, "*") by {
      if |serial| > 0 {
        assert line[..1] == serial[..1];
      } else {
        assert line[..1] == "\t";
      }
    }
    assert line[|serial|] == '\t';
    assert line[..|serial|] == serial;
    IndexOfIs(line, '\t', |serial|);
  }

  /** A line for an offline device is dropped when neither part has the letter `d`. */
  lemma {:induction false} OfflineLine(serial: string)
    requires 'd' !in serial
    ensures !Listed(serial + "\toffline")
  {
    var line := serial + "\toffline";
    assert 'd' !in "\toffline";
    NotContains(line, "device");
  }

  // ---------------------------------------------------------------------------
  // Server state
  // ---------------------------------------------------------------------------

  /** A WebSocket connection. */
  type Socket = nat

  /** No socket appears twice, as in a JavaScript `Set`. */
  predicate Distinct(s: seq<Socket>)
  {
    forall i, j :: 0 <= i < j < |s| ==> s[i] != s[j]
  }

  /** `set.add(ws)`: appended unless already present. */
  function Add(s: seq<Socket>, ws: Socket): (r: seq<Socket>)
    ensures forall x :: x in r <==> x in s || x == ws
    ensures Distinct(s) ==> Distinct(r)
  {
    if ws in s then s else s + [ws]
  }

  /** `set.delete(ws)`: the other members in their order. */
  function Remove(s: seq<Socket>, ws: Socket): (r: seq<Socket>)
    ensures forall x :: x in r <==> x in s && x != ws
    ensures Distinct(s) ==> Distinct(r)
    ensures |r| <= |s|
  {
    if |s| == 0 then []
    else if s[0] == ws then Remove(s[1..], ws)
    else
      var rest := Remove(s[1..], ws);
      assert Distinct(s) ==> s[0] !in s[1..] by {
        forall k | 0 <= k < |s[1..]|
          ensures Distinct(s) ==> s[1..][k] != s[0]
        {
          assert s[1..][k] == s[k + 1];
        }
      }
      assert Distinct(s) ==> Distinct(s[1..]) by {
        if Distinct(s) {
          forall i, j | 0 <= i < j < |s[1..]|
            ensures s[1..][i] != s[1..][j]
          {
            assert s[1..][i] == s[i + 1] && s[1..][j] == s[j + 1];
          }
        }
      }
      [s[0]] + rest
  }

  /** Deleting what was just added gives back the set it was added to. */
  lemma {:induction false} RemoveAdd(s: seq<Socket>, ws: Socket)
    ensures ws !in s ==> Remove(Add(s, ws), ws) == s
    ensures Remove(Add(s, ws), ws) == Remove(s, ws)
  {
    RemoveAppend(s, ws);
    if ws !in s {
      RemoveAbsent(s, ws);
    }
  }

  lemma {:induction false} RemoveAppend(s: seq<Socket>, ws: Socket)
    ensures Remove(s + [ws], ws) == Remove(s, ws)
  {
    if |s| == 0 {
      assert Remove([ws][1..], ws) == [];
    } else {
      assert (s + [ws])[0] == s[0];
      assert (s + [ws])[1..] == s[1..] + [ws];
      RemoveAppend(s[1..], ws);
    }
  }

  lemma {:induction false} RemoveAbsent(s: seq<Socket>, ws: Socket)
    requires ws !in s
    ensures Remove(s, ws) == s
  {
    if |s| > 0 {
      assert ws !in s[1..];
      RemoveAbsent(s[1..], ws);
      assert s == [s[0]] + s[1..];
    }
  }

  /** A status message sent to desktop clients (the sensor readings are left out). */
  datatype Status = Status(connected: bool, error: Option<string>, source: string, mobileClients: nat)

  /** What the device read in `pollSensorData` produced, when it was attempted. */
  datatype SensorRead =
    | Readings   // an accelerometer or gyroscope value came back
    | NoReadings // both came back `null`: demo data
    | ReadFailed // `getSensorData` rejected: demo data

  class SensorHub {
    var mobileClients: seq<Socket>
    var desktopClients: seq<Socket>
    /** The legacy ADB device; `None` is `null`. */
    var connectedDevice: Option<string>

    /** Both client collections behave as sets. */
    predicate Valid()
      reads this
    {
      Distinct(mobileClients) && Distinct(desktopClients)
    }

    /** A device serial JavaScript treats as true: present and not empty. */
    predicate HasConnectedDevice()
      reads this
    {
      connectedDevice.Some? && connectedDevice.value != ""
    }

    /** The module's initial state: no clients, no device. */
    constructor ()
      ensures Valid()
      ensures mobileClients == [] && desktopClients == [] && connectedDevice.None?
    {
      mobileClients := [];
      desktopClients := [];
      connectedDevice := None;
    }

    /**
     * A new connection. A mobile client joins `mobileClients` and every
     * desktop client is told a mobile sensor is connected; any other role
     * joins `desktopClients` and is itself sent the current status.
     */
    method Connect(ws: Socket, role: string) returns (recipients: seq<Socket>, status: Status)
      requires Valid()
      modifies this`mobileClients, this`desktopClients
      ensures Valid()
      ensures role == "mobile" ==> mobileClients == Add(old(mobileClients), ws) && desktopClients == old(desktopClients)
      ensures role == "mobile" ==> recipients == desktopClients && status == Status(true, None, "mobile_websocket", |mobileClients|)
      ensures role != "mobile" ==> desktopClients == Add(old(desktopClients), ws) && mobileClients == old(mobileClients)
      ensures role != "mobile" ==> recipients == [ws] && status.mobileClients == |mobileClients|
      ensures role != "mobile" ==> (status.connected <==> |mobileClients| > 0)
      ensures role != "mobile" ==>
        (status.source == "mobile_websocket" <==> status.connected) && (status.error.None? <==> status.connected)
    {
      if role == "mobile" {
        mobileClients := Add(mobileClients, ws);
        recipients := desktopClients;
        status := Status(true, None, "mobile_websocket", |mobileClients|);
      } else {
        desktopClients := Add(desktopClients, ws);
        recipients := [ws];
        var any := |mobileClients| > 0;
        status := Status(any, if any then None else Some("Waiting for mobile sensor connection..."),
          if any then "mobile_websocket" else "none", |mobileClients|);
      }
    }

    /**
     * A socket closes: it leaves both sets, and if it connected as a mobile
     * client the remaining desktop clients are told the sensor is gone.
     */
    method Close(ws: Socket, role: string) returns (recipients: seq<Socket>, status: Option<Status>)
      requires Valid()
      modifies this`mobileClients, this`desktopClients
      ensures Valid()
      ensures mobileClients == Remove(old(mobileClients), ws) && desktopClients == Remove(old(desktopClients), ws)
      ensures ws !in mobileClients && ws !in desktopClients
      ensures role == "mobile" <==> status.Some?
      ensures role == "mobile" ==> recipients == desktopClients && !status.value.connected && status.value.mobileClients == 0
      ensures role != "mobile" ==> recipients == []
    {
      Drop(ws);
      if role == "mobile" {
        recipients := desktopClients;
        status := Some(Status(false, Some("Mobile sensor disconnected - reconnect to resume"), "none", 0));
      } else {
        recipients := [];
        status := None;
      }
    }

    /** A socket error: the socket leaves both sets and nobody is told. */
    method Drop(ws: Socket)
      requires Valid()
      modifies this`mobileClients, this`desktopClients
      ensures Valid()
      ensures mobileClients == Remove(old(mobileClients), ws) && desktopClients == Remove(old(desktopClients), ws)
      ensures ws !in mobileClients && ws !in desktopClients
    {
      mobileClients := Remove(mobileClients, ws);
      desktopClients := Remove(desktopClients, ws);
    }

    /**
     * The `connectedDevice` rule of `pollSensorData`: cleared when no device
     * is left, set to the first device when there was none, and otherwise
     * kept, even when that device is no longer listed.
     */
    method TrackDevice(devices: seq<string>)
      modifies this`connectedDevice
      ensures |devices| == 0 ==> !HasConnectedDevice()
      ensures |devices| == 0 && old(connectedDevice) != Some("") ==> connectedDevice.None?
      ensures |devices| > 0 && old(HasConnectedDevice()) ==> connectedDevice == old(connectedDevice)
      ensures |devices| > 0 && !old(HasConnectedDevice()) ==> connectedDevice == Some(devices[0])
    {
      var hasDevice := |devices| > 0;
      if !hasDevice && HasConnectedDevice() {
        connectedDevice := None;
      } else if hasDevice && !HasConnectedDevice() {
        connectedDevice := Some(devices[0]);
      }
    }

    /**
     * One round of `pollSensorData` given the devices `detectDevices`
     * resolved (empty when it rejected) and the outcome of the device read.
     * With a mobile client connected only the mobile status goes out;
     * otherwise `connectedDevice` follows the device list and the fallback
     * status goes to every desktop client.
     */
    method Poll(devices: seq<string>, read: SensorRead) returns (recipients: seq<Socket>, status: Status)
      modifies this`connectedDevice
      ensures recipients == desktopClients
      ensures |mobileClients| > 0 ==>
        connectedDevice == old(connectedDevice) && status == Status(true, None, "mobile_websocket", |mobileClients|)
      ensures |mobileClients| == 0 ==> status == FallbackStatus(|devices| > 0, HasConnectedDevice(), read)
      ensures |mobileClients| == 0 && |devices| == 0 ==> !HasConnectedDevice()
      ensures |mobileClients| == 0 && |devices| == 0 && old(connectedDevice) != Some("") ==> connectedDevice.None?
      ensures |mobileClients| == 0 && |devices| > 0 && old(HasConnectedDevice()) ==> connectedDevice == old(connectedDevice)
      ensures |mobileClients| == 0 && |devices| > 0 && !old(HasConnectedDevice()) ==> connectedDevice == Some(devices[0])
    {
      recipients := desktopClients;
      if |mobileClients| > 0 {
        status := Status(true, None, "mobile_websocket", |mobileClients|);
        return;
      }
      TrackDevice(devices);
      status := FallbackStatus(|devices| > 0, HasConnectedDevice(), read);
    }
  }

  /**
   * The status `pollSensorData` sends when no mobile client is connected:
   * whether a device is listed, and, when the device read was attempted
   * (`attempted`), what it produced.
   */
  function FallbackStatus(hasDevice: bool, attempted: bool, read: SensorRead): (s: Status)
    ensures s.connected == hasDevice && s.mobileClients == 0
    ensures !hasDevice ==> s == Status(false, Some("No device connected"), "adb_fallback", 0)
    ensures hasDevice && attempted && read == Readings ==> s == Status(true, None, "adb_realtime", 0)
    ensures hasDevice && attempted && read != Readings ==> s.source == "adb_fallback" && s.error.Some?
    ensures hasDevice && !attempted ==>
      s == Status(true, Some("Open mobile-sensor.html on your phone to see real sensor data"), "adb_fallback", 0)
    ensures s.source == "adb_realtime" <==> s.error.None?
  {
    var initial := Status(hasDevice,
      Some(if hasDevice then "Open mobile-sensor.html on your phone to see real sensor data" else "No device connected"),
      "adb_fallback", 0);
    if hasDevice && attempted then
      match read
      case Readings => initial.(source := "adb_realtime", error := None)
      case NoReadings => initial.(error := Some("Using demo data - real sensors not available"))
      case ReadFailed => initial.(error := Some("ADB sensor read failed - using demo data"))
    else
      initial
  }
}
