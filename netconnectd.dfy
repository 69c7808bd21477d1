/** The plugin: the command helpers layered on `_send_message`, and the
    API entry points that route to them. The daemon is scripted per
    connection: the k-th message the plugin sends reaches `daemon(k)`. */
module Netconnectd {
  import opened Values
  import opened Transport
  import Encoding
  import opened Protocol

  /** The plugin's settings, as the host stores them. */
  datatype Settings = Settings(socket: string, hostname: Option<string>, timeout: int)

  /** What an API handler gives back to the web framework: a JSON body, a
      plain response with a status code, nothing, or an exception it lets
      escape. */
  datatype ApiResult = Body(json: Json) | Refused(text: string, code: int) | NoBody | Failed(exc: Exception)

  const NoArgs := JObj([])
  const StartWifi := Request("start_wifi", NoArgs)
  const StatusRequest := Request("status", NoArgs)

  const ListingFailure := "Error while listing wifi: "
  const StatusFailure := "Error while querying status: "
  const ConfigureFailure := "Error while configuring wifi: "
  const SelectFailure := "Error while selecting wifi: "
  const ForgetFailure := "Error while forgetting wifi: "
  const ResetFailure := "Error while factory resetting netconnectd: "
  const StartApFailure := "Error while starting ap: "
  const StopApFailure := "Error while stopping ap: "

  // ---------------------------------------------------------------- payloads

  /** The `list_wifi` arguments: `force` is sent, as true, only when asked for. */
  function ListWifiArgs(force: bool): (args: Json)
    ensures args.JObj?
    ensures HasKey(args.members, "force") <==> force
    ensures force ==> Lookup(args.members, "force") == JBool(true)
    ensures !force ==> args.members == []
  {
    if force then
      var ms := [Member("force", JBool(true))];
      assert ms[0].key == "force";
      JObj(ms)
    else NoArgs
  }

  function ListWifi(force: bool): Request
  {
    Request("list_wifi", ListWifiArgs(force))
  }

  /** The `config_wifi` arguments of lines 151-155. */
  function ConfigArgs(ssid: Json, psk: Json, force: Json): Json
  {
    JObj([Member("ssid", ssid), Member("psk", psk), Member("force", force)])
  }

  function Configure(ssid: Json, psk: Json, force: Json): Request
  {
    Request("config_wifi", ConfigArgs(ssid, psk, force))
  }

  // ---------------------------------------------------------------- interpreting replies

  /** `if not flag: raise RuntimeError(prefix + content)`, else the content. */
  function Check(prefix: string, reply: Reply): (r: Outcome<Json>)
    ensures r.Ok? <==> reply.flag
    ensures reply.flag ==> r.value == reply.content
    ensures !reply.flag && reply.content.JStr? ==> r == Raised(RuntimeError(prefix + reply.content.s))
  {
    if reply.flag then Ok(reply.content)
    else
      var text :- Concat(prefix, reply.content);
      Raised(RuntimeError(text))
  }

  /** A failed exchange raises the helper's own message: its prefix
      followed by the failure content. */
  lemma CheckedFailure(prefix: string, address: Option<string>, peer: Peer, lib: JsonLibrary, req: Request)
    requires Completes(address, peer)
    requires !Exchange(address, peer, lib, req).flag
    ensures var reply := Exchange(address, peer, lib, req);
            reply.content.JStr? && Check(prefix, reply) == Raised(RuntimeError(prefix + reply.content.s))
  {
    FailureIsText(address, peer, lib, req);
  }

  /** When the daemon answers `{"error": text}`, the helper raises its
      prefix followed by that text. */
  lemma DaemonErrorRaised(prefix: string, address: string, peer: Peer, lib: JsonLibrary, req: Request, text: string)
    requires peer.connectFault.None? && peer.sendFault.None?
    requires forall i | 0 <= i < |peer.inbox| :: peer.inbox[i].Chunk?
    requires var response := JObj([Member("error", JStr(text))]);
             Joined(peer.inbox) == Encoding.Ascii(Encoding.Dumps(response)) + [Nul] &&
             lib.loads(Encoding.Ascii(Encoding.Dumps(response))) == Ok(response)
    ensures Answers(peer)
    ensures Check(prefix, Exchange(Some(address), peer, lib, req)) == Raised(RuntimeError(prefix + text))
  {
    var ms := [Member("error", JStr(text))];
    DaemonAnswerHeard(address, peer, lib, req, JObj(ms));
    assert ms[0].key == "error";
    ErrorReported(lib, ms);
  }

  /** When the daemon answers `{"result": value}`, the helper returns `value`. */
  lemma DaemonResultReturned(prefix: string, address: string, peer: Peer, lib: JsonLibrary, req: Request, value: Json)
    requires peer.connectFault.None? && peer.sendFault.None?
    requires forall i | 0 <= i < |peer.inbox| :: peer.inbox[i].Chunk?
    requires var response := JObj([Member("result", value)]);
             Joined(peer.inbox) == Encoding.Ascii(Encoding.Dumps(response)) + [Nul] &&
             lib.loads(Encoding.Ascii(Encoding.Dumps(response))) == Ok(response)
    ensures Answers(peer)
    ensures Check(prefix, Exchange(Some(address), peer, lib, req)) == Ok(value)
  {
    var ms := [Member("result", value)];
    DaemonAnswerHeard(address, peer, lib, req, JObj(ms));
    assert ms[0].key == "result";
    ResultWins(lib, JObj(ms));
  }

  /** One daemon record as the plugin reports it (line 138): `ssid`,
      `address` and `encrypted` copied, `signal` renamed to `quality`. A
      missing field raises `KeyError`; a record that is not an object raises
      `TypeError`. */
  function NetworkRecord(wifi: Json): Outcome<Json>
  {
    var ssid :- Subscript(wifi, "ssid");
    var address :- Subscript(wifi, "address");
    var signal :- Subscript(wifi, "signal");
    var encrypted :- Subscript(wifi, "encrypted");
    Ok(JObj([Member("ssid", ssid), Member("address", address), Member("quality", signal), Member("encrypted", encrypted)]))
  }

  /** A record converts exactly when it is an object with all four fields;
      the result copies them, with `signal` renamed to `quality`. */
  lemma NetworkRecordFields(wifi: Json)
    ensures NetworkRecord(wifi).Ok? <==>
              wifi.JObj? && HasKey(wifi.members, "ssid") && HasKey(wifi.members, "address")
              && HasKey(wifi.members, "signal") && HasKey(wifi.members, "encrypted")
    ensures NetworkRecord(wifi).Ok? ==> NetworkRecord(wifi).value == JObj([
              Member("ssid", Lookup(wifi.members, "ssid")),
              Member("address", Lookup(wifi.members, "address")),
              Member("quality", Lookup(wifi.members, "signal")),
              Member("encrypted", Lookup(wifi.members, "encrypted"))])
  {
  }

  /** The records of lines 137-138, in order; the first record that cannot
      be converted raises. */
  function NetworkList(ws: seq<Json>): Outcome<seq<Json>>
  {
    MapAll(NetworkRecord, ws)
  }

  /** The list the plugin builds from the `list_wifi` content. */
  function Networks(content: Json): Outcome<seq<Json>>
  {
    var ws :- Elements(content);
    NetworkList(ws)
  }

  /** `_get_wifi_list` after the exchange. */
  function WifiList(reply: Reply): Outcome<seq<Json>>
  {
    var content :- Check(ListingFailure, reply);
    Networks(content)
  }

  /** `status["wifi"]["present"]`, as a truth value. */
  function WifiPresent(status: Json): Outcome<bool>
  {
    var wifi :- Subscript(status, "wifi");
    var present :- Subscript(wifi, "present");
    Ok(Truthy(present))
  }

  /** Line 74 reads `present` inside the `wifi` dict of the status; the
      lookup succeeds exactly when both levels are dicts holding those keys,
      and its truth value decides the listing. */
  lemma WifiPresentCases(status: Json)
    ensures WifiPresent(status).Ok? <==>
              status.JObj? && HasKey(status.members, "wifi") &&
              Lookup(status.members, "wifi").JObj? && HasKey(Lookup(status.members, "wifi").members, "present")
    ensures WifiPresent(status).Ok? ==>
              WifiPresent(status).value == Truthy(Lookup(Lookup(status.members, "wifi").members, "present"))
  {
  }

  function Discard(o: Outcome<Json>): Outcome<()>
  {
    match o
    case Ok(_) => Ok(())
    case Raised(e) => Raised(e)
  }

  /** One record that converts gives a one-element list. */
  lemma SingleNetwork(wifi: Json)
    requires NetworkRecord(wifi).Ok?
    ensures NetworkList([wifi]) == Ok([NetworkRecord(wifi).value])
  {
    var xs := [wifi];
    assert xs[..|xs| - 1] == [] && xs[|xs| - 1] == wifi;
    assert MapAll(NetworkRecord, xs[..|xs| - 1]) == Ok([]);
    assert [] + [NetworkRecord(wifi).value] == [NetworkRecord(wifi).value];
  }

  /** The daemon's example record, converted. */
  lemma ExampleRecord()
    ensures NetworkRecord(JObj([
              Member("ssid", JStr("Home")), Member("address", JStr("AA:BB:CC:DD:EE:FF")),
              Member("signal", JInt(80)), Member("encrypted", JBool(true))]))
            == Ok(JObj([
              Member("ssid", JStr("Home")), Member("address", JStr("AA:BB:CC:DD:EE:FF")),
              Member("quality", JInt(80)), Member("encrypted", JBool(true))]))
  {
    var rec := JObj([
      Member("ssid", JStr("Home")), Member("address", JStr("AA:BB:CC:DD:EE:FF")),
      Member("signal", JInt(80)), Member("encrypted", JBool(true))]);
    var ms := rec.members;
    assert ms[0].key == "ssid" && ms[1].key == "address" && ms[2].key == "signal" && ms[3].key == "encrypted";
    assert Lookup(ms, "ssid") == JStr("Home");
    assert Lookup(ms, "address") == JStr("AA:BB:CC:DD:EE:FF");
    assert Lookup(ms, "signal") == JInt(80);
    assert Lookup(ms, "encrypted") == JBool(true);
    NetworkRecordFields(rec);
  }

  /** The daemon's example answer to `list_wifi`, and what the plugin makes
      of it. */
  lemma ListWifiExample()
    ensures WifiList(Reply(true, JArr([JObj([
              Member("ssid", JStr("Home")), Member("address", JStr("AA:BB:CC:DD:EE:FF")),
              Member("signal", JInt(80)), Member("encrypted", JBool(true))])])))
            == Ok([JObj([
              Member("ssid", JStr("Home")), Member("address", JStr("AA:BB:CC:DD:EE:FF")),
              Member("quality", JInt(80)), Member("encrypted", JBool(true))])])
  {
    var rec := JObj([
      Member("ssid", JStr("Home")), Member("address", JStr("AA:BB:CC:DD:EE:FF")),
      Member("signal", JInt(80)), Member("encrypted", JBool(true))]);
    ExampleRecord();
    SingleNetwork(rec);
  }

  // ---------------------------------------------------------------- routing

  datatype Action = RefreshWifi | Forbidden | ConfigureWifi | ForgetWifi | FactoryReset | StartAp | StopAp | Ignored

  /** Lines 88-113: `refresh_wifi` is served before the admin check; every
      other command needs an admin; unknown commands do nothing. */
  function Route(command: string, isAdmin: bool): (a: Action)
    ensures a == RefreshWifi <==> command == "refresh_wifi"
    ensures a == Forbidden <==> command != "refresh_wifi" && !isAdmin
    ensures a == ConfigureWifi <==> isAdmin && command == "configure_wifi"
    ensures a == ForgetWifi <==> isAdmin && command == "forget_wifi"
    ensures a == FactoryReset <==> isAdmin && command == "reset"
    ensures a == StartAp <==> isAdmin && command == "start_ap"
    ensures a == StopAp <==> isAdmin && command == "stop_ap"
    ensures a == Ignored <==>
              isAdmin && command !in ["refresh_wifi", "configure_wifi", "forget_wifi", "reset", "start_ap", "stop_ap"]
  {
    if command == "refresh_wifi" then RefreshWifi
    else if !isAdmin then Forbidden
    else if command == "configure_wifi" then ConfigureWifi
    else if command == "forget_wifi" then ForgetWifi
    else if command == "reset" then FactoryReset
    else if command == "start_ap" then StartAp
    else if command == "stop_ap" then StopAp
    else Ignored
  }

  /** The daemon command and the failure prefix of each argument-less
      admin command. */
  function CommandOf(a: Action): (string, string)
    requires a in {ForgetWifi, FactoryReset, StartAp, StopAp}
  {
    match a
    case ForgetWifi => ("forget_wifi", ForgetFailure)
    case FactoryReset => ("reset", ResetFailure)
    case StartAp => ("start_ap", StartApFailure)
    case StopAp => ("stop_ap", StopApFailure)
  }

  /** Lines 96-101: the arguments `configure_wifi` passes on. Reading `psk`
      raises `KeyError` when it is missing; the log line, whichever branch
      `psk` selects, formats `ssid` into a `str`, which raises `KeyError`
      when it is missing and `UnicodeEncodeError` when it is a non-ASCII
      string. `force` defaults to false. */
  function ConfigureCall(data: seq<Member>): (r: Outcome<(Json, Json, Json)>)
    ensures r.Ok? <==> HasKey(data, "psk") && HasKey(data, "ssid") && FormatValue(Lookup(data, "ssid")).Ok?
    ensures !HasKey(data, "psk") ==> r == Raised(KeyError("psk"))
    ensures HasKey(data, "psk") && !HasKey(data, "ssid") ==> r == Raised(KeyError("ssid"))
    ensures HasKey(data, "psk") && HasKey(data, "ssid") && FormatValue(Lookup(data, "ssid")).Raised? ==>
              r == Raised(FormatValue(Lookup(data, "ssid")).exc)
    ensures r.Ok? ==> r.value == (Lookup(data, "ssid"), Lookup(data, "psk"),
                                  if HasKey(data, "force") then Lookup(data, "force") else JBool(false))
  {
    var psk :- Subscript(JObj(data), "psk");
    var ssid :- Subscript(JObj(data), "ssid");
    var _ :- FormatValue(ssid);
    var force := if HasKey(data, "force") then Lookup(data, "force") else JBool(false);
    Ok((ssid, psk, force))
  }

  /** A non-ASCII `ssid` stops `configure_wifi` in its log line: nothing is
      configured. */
  lemma NonAsciiSsidRaises()
    ensures ConfigureCall([Member("ssid", JStr("Caf\U{E9}")), Member("psk", JStr("secret"))])
            == Raised(UnicodeEncodeError('\U{E9}', 3))
  {
    var data := [Member("ssid", JStr("Caf\U{E9}")), Member("psk", JStr("secret"))];
    assert data[0].key == "ssid" && data[1].key == "psk";
    assert Lookup(data, "ssid") == JStr("Caf\U{E9}");
    assert !IsAscii("Caf\U{E9}") by {
      assert "Caf\U{E9}"[3] as int >= 128;
    }
    assert FirstNonAscii("Caf\U{E9}") == 3;
  }

  /** What `on_api_get` answers when a step raises. */
  function ErrorBody(e: Exception): Json
  {
    JObj([Member("error", JStr(Message(e)))])
  }

  function AfterCommand(o: Outcome<()>): ApiResult
  {
    if o.Ok? then NoBody else Failed(o.exc)
  }

  /** `_configure_and_select_wifi` after its exchanges: the `config_wifi`
      reply is checked first, the `start_wifi` reply only after it. */
  function ConfigureOutcome(first: Reply, second: Reply): Outcome<()>
  {
    var _ :- Check(ConfigureFailure, first);
    Discard(Check(SelectFailure, second))
  }

  /** Configuring succeeds exactly when both replies do, and each failure
      carries the prefix of the step that failed. */
  lemma ConfigureOutcomeCases(first: Reply, second: Reply)
    ensures ConfigureOutcome(first, second).Ok? <==> first.flag && second.flag
    ensures !first.flag && first.content.JStr? ==>
              ConfigureOutcome(first, second) == Raised(RuntimeError(ConfigureFailure + first.content.s))
    ensures first.flag && !second.flag && second.content.JStr? ==>
              ConfigureOutcome(first, second) == Raised(RuntimeError(SelectFailure + second.content.s))
  {
  }

  /** What `on_api_get` builds from the two replies it may receive. */
  function OverviewOf(statusReply: Reply, listReply: Reply, hostname: string): Outcome<Json>
  {
    var status :- Check(StatusFailure, statusReply);
    var present :- WifiPresent(status);
    var wifis :- if present then WifiList(listReply) else Ok([]);
    Ok(JObj([Member("wifis", JArr(wifis)), Member("status", status), Member("hostname", JStr(hostname))]))
  }

  /** The body `on_api_get` answers with: the overview, or `{"error": message}`. */
  function Overview(statusReply: Reply, listReply: Reply, hostname: string): Json
  {
    match OverviewOf(statusReply, listReply, hostname)
    case Ok(j) => j
    case Raised(e) => ErrorBody(e)
  }

  /** The cases of `on_api_get`: a failed status reply is reported with the
      status prefix; the list reply matters only when Wi-Fi is present. */
  lemma OverviewCases(statusReply: Reply, listReply: Reply, hostname: string)
    ensures !statusReply.flag && statusReply.content.JStr? ==>
              Overview(statusReply, listReply, hostname)
              == JObj([Member("error", JStr(StatusFailure + statusReply.content.s))])
    ensures statusReply.flag && WifiPresent(statusReply.content).Raised? ==>
              Overview(statusReply, listReply, hostname) == ErrorBody(WifiPresent(statusReply.content).exc)
    ensures statusReply.flag && WifiPresent(statusReply.content) == Ok(false) ==>
              Overview(statusReply, listReply, hostname)
              == JObj([Member("wifis", JArr([])), Member("status", statusReply.content),
                       Member("hostname", JStr(hostname))])
    ensures statusReply.flag && WifiPresent(statusReply.content) == Ok(true) ==>
              Overview(statusReply, listReply, hostname)
              == match WifiList(listReply)
                 case Ok(ws) => JObj([Member("wifis", JArr(ws)), Member("status", statusReply.content),
                                      Member("hostname", JStr(hostname))])
                 case Raised(e) => ErrorBody(e)
  {
  }

  // ---------------------------------------------------------------- the plugin

  class Plugin {
    /** The socket path, read from the settings by `initialize`. */
    var address: Option<string>
    var settings: Settings
    const lib: JsonLibrary
    /** The daemon's behaviour on each successive connection. */
    const daemon: nat -> Peer
    /** Every message handed to `_send_message`, in order. */
    var requests: seq<Request>

    ghost predicate Valid()
    {
      forall k: nat :: Answers(daemon(k))
    }

    /** `__init__`: no address until `initialize`. */
    constructor (settings: Settings, lib: JsonLibrary, daemon: nat -> Peer)
      requires forall k: nat :: Answers(daemon(k))
      ensures Valid() && address == None && requests == []
      ensures this.settings == settings && this.lib == lib && this.daemon == daemon
    {
      address := None;
      this.settings := settings;
      this.lib := lib;
      this.daemon := daemon;
      requests := [];
    }

    /** `initialize`: the address is the configured socket path. */
    method Initialize()
      modifies this`address
      ensures address == Some(settings.socket)
    {
      address := Some(settings.socket);
    }

    /** `on_settings_save`: once the host has stored `saved`, the address
      follows the stored socket path. */
    method OnSettingsSave(saved: Settings)
      modifies this`settings, this`address
      ensures settings == saved && address == Some(saved.socket)
    {
      settings := saved;
      address := Some(settings.socket);
    }

    /** The `hostname` property: the configured name when it is non-empty,
        otherwise the machine's name with `.local` appended. */
    function Hostname(machineName: string): (h: string)
      reads this
      ensures h != []
      ensures settings.hostname.Some? && settings.hostname.value != "" ==> h == settings.hostname.value
      ensures settings.hostname.None? || settings.hostname.value == "" ==> h == machineName + ".local"
    {
      if settings.hostname.Some? && settings.hostname.value != "" then settings.hostname.value
      else machineName + ".local"
    }

    /** The reply the next connection gives to `req`. */
    function NextReply(req: Request): Reply
      reads this
      requires Valid()
    {
      Exchange(address, daemon(|requests|), lib, req)
    }

    /** `_send_message`: one fresh socket per message, closed before it returns. */
    method SendMessage(command: string, args: Json) returns (flag: bool, content: Json)
      requires Valid()
      modifies this`requests
      ensures requests == old(requests) + [Request(command, args)]
      ensures Reply(flag, content) == old(NextReply(Request(command, args)))
      ensures !flag ==> content.JStr?
    {
      var request := Request(command, args);
      var sock := new Socket(daemon(|requests|));
      var reply := Talk(sock, address, lib, request);
      FailureIsText(address, sock.peer, lib, request);
      requests := requests + [request];
      flag, content := reply.flag, reply.content;
    }

    /** Lines 137-138: the `for` loop that builds the list. */
    static method BuildNetworks(content: Json) returns (r: Outcome<seq<Json>>)
      ensures r == Networks(content)
    {
      var elements := Elements(content);
      if elements.Raised? {
        return Raised(elements.exc);
      }
      var ws := elements.value;
      var result: seq<Json> := [];
      for i := 0 to |ws|
        invariant |result| == i
        invariant forall j | 0 <= j < i :: NetworkRecord(ws[j]).Ok? && result[j] == NetworkRecord(ws[j]).value
      {
        var record := NetworkRecord(ws[i]);
        if record.Raised? {
          MapAllFirstFailure(NetworkRecord, ws, i);
          assert Networks(content) == NetworkList(ws);
          return Raised(record.exc);
        }
        result := result + [record.value];
      }
      MapAllEach(NetworkRecord, ws);
      assert NetworkList(ws).value == result;
      r := Ok(result);
    }

    /** `_get_wifi_list(force)`. */
    method GetWifiList(force: bool) returns (r: Outcome<seq<Json>>)
      requires Valid()
      modifies this`requests
      ensures requests == old(requests) + [ListWifi(force)]
      ensures r == WifiList(old(NextReply(ListWifi(force))))
    {
      var payload: seq<Member> := [];
      if force {
        payload := payload + [Member("force", JBool(true))];
      }
      assert JObj(payload) == ListWifiArgs(force);
      var flag, content := SendMessage("list_wifi", JObj(payload));
      if !flag {
        return Raised(RuntimeError(ListingFailure + content.s));
      }
      r := BuildNetworks(content);
    }

    /** The shape shared by the helpers that send one argument-less command. */
    method Command(command: string, failure: string) returns (r: Outcome<Json>)
      requires Valid()
      modifies this`requests
      ensures requests == old(requests) + [Request(command, NoArgs)]
      ensures r == Check(failure, old(NextReply(Request(command, NoArgs))))
    {
      var flag, content := SendMessage(command, NoArgs);
      r := Check(failure, Reply(flag, content));
    }

    /** `_get_status`: the daemon's status, verbatim. */
    method GetStatus() returns (r: Outcome<Json>)
      requires Valid()
      modifies this`requests
      ensures requests == old(requests) + [StatusRequest]
      ensures r == Check(StatusFailure, old(NextReply(StatusRequest)))
    {
      r := Command("status", StatusFailure);
    }

    /** `_configure_and_select_wifi`: `start_wifi` is sent only after
        `config_wifi` succeeded. */
    method ConfigureAndSelectWifi(ssid: Json, psk: Json, force: Json) returns (r: Outcome<()>)
      requires Valid()
      modifies this`requests
      ensures var first := old(NextReply(Configure(ssid, psk, force)));
        requests == old(requests) + [Configure(ssid, psk, force)] + (if first.flag then [StartWifi] else [])
      ensures r == ConfigureOutcome(old(NextReply(Configure(ssid, psk, force))),
                                    Exchange(address, daemon(|old(requests)| + 1), lib, StartWifi))
    {
      ghost var first := NextReply(Configure(ssid, psk, force));
      var flag, content := SendMessage("config_wifi", ConfigArgs(ssid, psk, force));
      if !flag {
        return Raised(RuntimeError(ConfigureFailure + content.s));
      }
      var selected := Command("start_wifi", SelectFailure);
      r := Discard(selected);
    }

    /** `_forget_wifi`. */
    method ForgetWifi() returns (r: Outcome<()>)
      requires Valid()
      modifies this`requests
      ensures requests == old(requests) + [Request("forget_wifi", NoArgs)]
      ensures r == Discard(Check(ForgetFailure, old(NextReply(Request("forget_wifi", NoArgs)))))
    {
      var o := Command("forget_wifi", ForgetFailure);
      r := Discard(o);
    }

    /** `_reset`. */
    method Reset() returns (r: Outcome<()>)
      requires Valid()
      modifies this`requests
      ensures requests == old(requests) + [Request("reset", NoArgs)]
      ensures r == Discard(Check(ResetFailure, old(NextReply(Request("reset", NoArgs)))))
    {
      var o := Command("reset", ResetFailure);
      r := Discard(o);
    }

    /** `_start_ap`. */
    method StartAccessPoint() returns (r: Outcome<()>)
      requires Valid()
      modifies this`requests
      ensures requests == old(requests) + [Request("start_ap", NoArgs)]
      ensures r == Discard(Check(StartApFailure, old(NextReply(Request("start_ap", NoArgs)))))
    {
      var o := Command("start_ap", StartApFailure);
      r := Discard(o);
    }

    /** `_stop_ap`. */
    method StopAccessPoint() returns (r: Outcome<()>)
      requires Valid()
      modifies this`requests
      ensures requests == old(requests) + [Request("stop_ap", NoArgs)]
      ensures r == Discard(Check(StopApFailure, old(NextReply(Request("stop_ap", NoArgs)))))
    {
      var o := Command("stop_ap", StopApFailure);
      r := Discard(o);
    }

    /** `on_api_command`. */
    method OnApiCommand(command: string, data: seq<Member>, isAdmin: bool) returns (r: ApiResult)
      requires Valid()
      modifies this`requests
      ensures Route(command, isAdmin) == RefreshWifi ==>
                requests == old(requests) + [ListWifi(true)] &&
                r == match WifiList(old(NextReply(ListWifi(true))))
                       case Ok(ws) => Body(JArr(ws))
                       case Raised(e) => Failed(e)
      ensures Route(command, isAdmin) in {Forbidden, Ignored} ==> requests == old(requests)
      ensures Route(command, isAdmin) == Forbidden ==> r == Refused("Insufficient rights", 403)
      ensures Route(command, isAdmin) == Ignored ==> r == NoBody
      ensures Route(command, isAdmin) == ConfigureWifi ==>
                match ConfigureCall(data)
                case Raised(e) => requests == old(requests) && r == Failed(e)
                case Ok(call) =>
                  var first := old(NextReply(Configure(call.0, call.1, call.2)));
                  requests == old(requests) + [Configure(call.0, call.1, call.2)] + (if first.flag then [StartWifi] else []) &&
                  r == AfterCommand(ConfigureOutcome(first, Exchange(address, daemon(|old(requests)| + 1), lib, StartWifi)))
      ensures Route(command, isAdmin) in {Action.ForgetWifi, FactoryReset, StartAp, StopAp} ==>
                var (name, failure) := CommandOf(Route(command, isAdmin));
                requests == old(requests) + [Request(name, NoArgs)] &&
                r == AfterCommand(Discard(Check(failure, old(NextReply(Request(name, NoArgs))))))
    {
      match Route(command, isAdmin) {
        case RefreshWifi =>
          var wifis := GetWifiList(true);
          r := if wifis.Ok? then Body(JArr(wifis.value)) else Failed(wifis.exc);
        case Forbidden =>
          r := Refused("Insufficient rights", 403);
        case ConfigureWifi =>
          var call := ConfigureCall(data);
          if call.Raised? {
            r := Failed(call.exc);
          } else {
            var (ssid, psk, force) := call.value;
            var o := ConfigureAndSelectWifi(ssid, psk, force);
            r := AfterCommand(o);
          }
        case ForgetWifi =>
          var o := ForgetWifi();
          r := AfterCommand(o);
        case FactoryReset =>
          var o := Reset();
          r := AfterCommand(o);
        case StartAp =>
          var o := StartAccessPoint();
          r := AfterCommand(o);
        case StopAp =>
          var o := StopAccessPoint();
          r := AfterCommand(o);
        case Ignored =>
          r := NoBody;
      }
    }

    /** `on_api_get`: the status, the Wi-Fi list when `status["wifi"]["present"]`
        is true, and the hostname; any exception becomes `{"error": message}`.
        The list is asked for only when the status says Wi-Fi is present. */
    method OnApiGet(machineName: string) returns (r: ApiResult)
      requires Valid()
      modifies this`requests
      ensures var status := Check(StatusFailure, old(NextReply(StatusRequest)));
        if status.Ok? && WifiPresent(status.value) == Ok(true) then
          requests == old(requests) + [StatusRequest, ListWifi(false)]
        else
          requests == old(requests) + [StatusRequest]
      ensures r == Body(Overview(old(NextReply(StatusRequest)),
                                 Exchange(address, daemon(|old(requests)| + 1), lib, ListWifi(false)),
                                 Hostname(machineName)))
    {
      ghost var statusReply := NextReply(StatusRequest);
      var status := GetStatus();
      ghost var listReply := NextReply(ListWifi(false));
      if status.Raised? {
        return Body(ErrorBody(status.exc));
      }
      var present := WifiPresent(status.value);
      if present.Raised? {
        return Body(ErrorBody(present.exc));
      }
      var wifis: seq<Json> := [];
      if present.value {
        var listed := GetWifiList(false);
        if listed.Raised? {
          return Body(ErrorBody(listed.exc));
        }
        wifis := listed.value;
      }
      r := Body(JObj([Member("wifis", JArr(wifis)), Member("status", status.value),
                      Member("hostname", JStr(Hostname(machineName)))]));
    }
  }
}
