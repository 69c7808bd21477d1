# OctoPrint-Netconnectd client, modelled in Dafny

OctoPrint-Netconnectd is an OctoPrint plugin that lets the printer's web
interface list Wi-Fi networks, join one, forget it, factory-reset the
network daemon and switch its access point on and off. It does none of this
itself. Every operation is one request to the `netconnectd` daemon over a
Unix domain socket. `_send_message` frames each request as the compact JSON
object `{command: args}` followed by one NUL byte. It reads the answer in
16-byte chunks until a chunk ends in NUL, strips and unframes the buffer,
parses it, and classifies it into a pair `(flag, content)`. Any exception
along the way becomes `(False, "Error while talking to netconnectd: ...")`,
and the socket is closed on every way out. Small helpers turn a failed pair
into a `RuntimeError` with an operation-specific prefix. Two API entry
points route web requests to those helpers.

The project has five modules:

- `Values` (values.dfy): decoded JSON values and the Python exceptions that
  occur. It gives Python's semantics for the operations the plugin applies
  to a decoded value: `key in v`, `v[key]`, `for x in v`, `str + v` and
  truthiness. A list, a string or a scalar where a dict was expected raises
  what Python raises. `MapAll` is the append loop the plugin uses to build
  its Wi-Fi list.
- `Encoding` (encoding.dfy): what `json.dumps(obj, separators=(",", ":"))`
  writes, with the default `ensure_ascii`, and the bytes it is sent as.
  Also Python's `str.strip()` on the bytes that come back.
- `Transport` (transport.dfy): the socket as a class with the four calls
  the plugin makes. The daemon's side is a script (`Peer`). It fixes
  whether `connect` and `sendall` raise, and what each successive `recv`
  returns or raises. A `recv` timeout is a scripted exception.
- `Protocol` (protocol.dfy): `_send_message`. It covers framing, the
  receive loop (a method with its invariant, proved against the `Collect`
  specification), unframing, classification, the catch-all handler and the
  `finally: close`.
- `Netconnectd` (netconnectd.dfy): the plugin class. It covers the command
  helpers, `on_api_command`, `on_api_get`, the `hostname` fallback,
  `initialize` and `on_settings_save`. The plugin's k-th message reaches
  the daemon script `daemon(k)`, and `requests` logs every message handed
  to `_send_message`, whether or not its `connect` succeeds.

Main results:

- Framing and unframing are inverse. The frame has exactly one NUL, at the
  end. However the daemon splits a NUL-terminated answer into chunks,
  empty chunks included, the receive loop buffers exactly that answer and
  unframing gives back the JSON text (`DaemonAnswerHeard`).
- The `(flag, content)` classification: the flag is true exactly when the
  response is an object with `result`. Every failure content is a string,
  so the helpers' `prefix + content` cannot raise.
- Every exception raised from `connect` (line 200) through classification
  is caught and reported with the talking-to-netconnectd prefix.
- The helpers send exactly the messages the source sends, in the same
  order. `start_wifi` is sent only after `config_wifi` succeeded.
  `refresh_wifi` is served without the admin check of line 92; every other
  command that reaches the daemon has passed it. `on_api_get` asks
  for the Wi-Fi list only when the status reports Wi-Fi present.

Two behaviours of the source deserve a note:

- A zero-length read before the terminator is not an error: the loop at
  lines 204-209 ignores it and reads again, so against a closed peer it
  never returns. The model states this as the precondition `Answers`: the
  script must end the loop.
- `on_api_command` checks `admin_permission.can()` itself at line 92, after
  serving `refresh_wifi`. The model takes the answer as the `isAdmin`
  parameter.

## Model

| member | source | states |
|---|---|---|
| Values.Lookup | octoprint_netconnectd/__init__.py:215 | the value read for a key is bound to that key, and no later member binds it again (the last duplicate wins, as in a decoded dict) |
| Values.IsSubstringOccurs | octoprint_netconnectd/__init__.py:214 | `needle in hay` on strings holds exactly when `needle` occurs at some index of `hay` |
| Values.Contains | octoprint_netconnectd/__init__.py:214-217 | `key in v` succeeds exactly on dicts, lists and strings |
| Values.ContainsCases | octoprint_netconnectd/__init__.py:214-217 | `Contains`: `in` tests a dict's keys, a list's items and a string's substrings, and raises `TypeError` on anything else |
| Values.Subscript | octoprint_netconnectd/__init__.py:138 | `v[key]` succeeds exactly on a dict holding the key and then gives the key's (last) value; a dict without it raises `KeyError(key)` |
| Values.Elements | octoprint_netconnectd/__init__.py:137 | `for x in v` works only on lists, dicts and strings, and visits a list's items, a dict's keys (one per member, in order) and a string's one-character strings; anything else raises |
| Values.TruthyCases | octoprint_netconnectd/__init__.py:74 | `Truthy`: `None`, `False`, zero and the empty string, list and dict are false, every other value is true |
| Values.FirstNonAscii | octoprint_netconnectd/__init__.py:97-99 | the index of the first character above U+007F, every character before it being ASCII |
| Values.FormatValue | octoprint_netconnectd/__init__.py:97-99 | formatting a value into a `str` template fails exactly for a non-ASCII unicode string, with `UnicodeEncodeError` at its first non-ASCII character |
| Values.Concat | octoprint_netconnectd/__init__.py:134 | `str + v` succeeds exactly when `v` is a string and then gives the concatenation |
| Values.MapAllEach | octoprint_netconnectd/__init__.py:136-139 | the append loop succeeds exactly when no element fails, and then keeps length and order and holds each element's result |
| Values.MapAllFirstFailure | octoprint_netconnectd/__init__.py:136-139 | when the loop fails, it raises the exception of the first element that fails |
| Encoding.Ascii | octoprint_netconnectd/__init__.py:201 | the JSON text is sent as one byte per character, each printable ASCII |
| Encoding.Escape | octoprint_netconnectd/__init__.py:194 | every character is escaped into non-empty printable ASCII, and only a space produces a space |
| Encoding.Quote | octoprint_netconnectd/__init__.py:194 | a string literal is printable, delimited by double quotes, and holds a space only if the string does |
| Encoding.IntText | octoprint_netconnectd/__init__.py:194 | an integer is written as a non-empty printable text without spaces |
| Encoding.Dumps | octoprint_netconnectd/__init__.py:194 | the serialisation is non-empty printable ASCII |
| Encoding.DumpsIsCompact | octoprint_netconnectd/__init__.py:194 | with separators `(",", ":")` the serialiser writes no whitespace of its own |
| Encoding.DumpsEdges | octoprint_netconnectd/__init__.py:194 | a serialisation neither begins nor ends with a space |
| Encoding.StripLeftShape | octoprint_netconnectd/__init__.py:211 | `StripLeft`, the left half of `strip()` keeps a suffix that does not begin with whitespace and drops only whitespace |
| Encoding.StripRightShape | octoprint_netconnectd/__init__.py:211 | `StripRight`, the right half of `strip()` keeps a prefix that does not end with whitespace and drops only whitespace |
| Encoding.StripShape | octoprint_netconnectd/__init__.py:211-213 | `Strip`, Python's `strip()`, keeps a contiguous slice with no whitespace at either end and drops only whitespace |
| Encoding.StripUnpadded | octoprint_netconnectd/__init__.py:211-213 | `strip()` leaves a text unchanged when it neither begins nor ends with whitespace |
| Transport.Socket.constructor | octoprint_netconnectd/__init__.py:197 | a new socket is unconnected, has sent nothing and is open |
| Transport.Socket.Connect | octoprint_netconnectd/__init__.py:200 | connecting to no address raises a `TypeError`; otherwise it raises what the daemon's script says, or connects |
| Transport.Socket.SendAll | octoprint_netconnectd/__init__.py:201 | `sendall` writes all the data or raises, writing nothing |
| Transport.Socket.Recv | octoprint_netconnectd/__init__.py:205 | `recv` gives the next event of the script |
| Transport.Socket.Close | octoprint_netconnectd/__init__.py:233 | after `close` the socket is closed |
| Protocol.Frame | octoprint_netconnectd/__init__.py:190-201 | the bytes sent end in NUL, and no other byte is NUL |
| Protocol.EnvelopeText | octoprint_netconnectd/__init__.py:190-194 | the request text is one object whose only key is the command and whose value is the arguments |
| Protocol.FirstStop | octoprint_netconnectd/__init__.py:204-209 | the index of the first `recv` event that ends the loop: a raise, or a chunk ending in NUL |
| Protocol.CollectStopsAtFirstTerminator | octoprint_netconnectd/__init__.py:203-209 | `Collect`, the loop's specification: the buffer is the in-order concatenation of the chunks up to the first one ending in NUL; an exception before it ends the loop instead, and a script with neither never ends it |
| Protocol.CollectWholeMessage | octoprint_netconnectd/__init__.py:203-209 | any split of a NUL-terminated message into chunks, empty ones included, is buffered as exactly that message |
| Protocol.UnframeDropsTerminator | octoprint_netconnectd/__init__.py:211-213 | `Unframe`, i.e. `strip()[:-1]` then `strip()` removes exactly the trailing NUL and the whitespace around the text |
| Protocol.UnframeFramed | octoprint_netconnectd/__init__.py:211-213 | unframing the compact JSON of any value followed by NUL gives back that JSON text |
| Protocol.FrameUnframes | octoprint_netconnectd/__init__.py:190-213 | unframing a request's frame gives back the request's JSON text |
| Protocol.ResultWins | octoprint_netconnectd/__init__.py:214-215 | `Classify`: the flag is true exactly when the response is an object with `result`, and then the content is that value even if `error` is present |
| Protocol.ErrorReported | octoprint_netconnectd/__init__.py:217-220 | `Classify`: without `result`, a string `error` is the failure content, and a non-string `error` makes the warning's concatenation raise |
| Protocol.UnknownReported | octoprint_netconnectd/__init__.py:222-225 | `Classify`: any response in which `in` finds neither key (an object without them, a list without them as items, a string without them as substrings) is reported as an unknown response followed by its `repr` |
| Protocol.ClassifiedFailureIsText | octoprint_netconnectd/__init__.py:214-225 | when classification gives a false flag, the content is a string: the `error` text or the unknown-response report |
| Protocol.FailureIsText | octoprint_netconnectd/__init__.py:214-230 | `Exchange`: whenever the flag is false, the content is a string |
| Protocol.FaultsAreCaught | octoprint_netconnectd/__init__.py:199-230 | `Recover` and `Exchange`: a failed `connect`, a failed `sendall`, a `recv` that raises, a response `json.loads` rejects, or a classification that raises (a `TypeError` from `in`, from indexing or from concatenating a non-string `error`) each gives `(False, "Error while talking to netconnectd: " + message)` |
| Protocol.HeardWhole | octoprint_netconnectd/__init__.py:203-209 | chunks that together make one terminated message end the loop at the chunk holding the NUL, with exactly that message buffered |
| Protocol.DaemonAnswerHeard | octoprint_netconnectd/__init__.py:199-225 | a daemon that answers with the compact JSON of a response and a NUL, in any chunking, is heard as exactly that response |
| Protocol.Receive | octoprint_netconnectd/__init__.py:203-209 | the loop returns the buffer or the exception that `Collect` specifies, and consumes exactly the events up to the one that ended it |
| Protocol.StopEndsCollect | octoprint_netconnectd/__init__.py:204-209 | a script with an event that stops the loop never runs out first |
| Protocol.Fetch | octoprint_netconnectd/__init__.py:200-213 | connecting, sending, receiving, unframing and parsing give the response `Response` specifies, or the first exception raised |
| Protocol.Converse | octoprint_netconnectd/__init__.py:200-225 | the `try` body gives the outcome `Conversation` specifies, and sends the frame exactly when `connect` succeeded and `sendall` did not fail |
| Protocol.Talk | octoprint_netconnectd/__init__.py:199-233 | `_send_message` returns `Exchange`, never raises, and closes the socket on every path |
| Netconnectd.ListWifiArgs | octoprint_netconnectd/__init__.py:127-130 | `force` is sent, as true, exactly when a forced refresh is asked for; otherwise the arguments are empty |
| Netconnectd.Check | octoprint_netconnectd/__init__.py:133-134 | a helper returns the content exactly when the flag is true; otherwise it raises `RuntimeError(prefix + content)` |
| Netconnectd.CheckedFailure | octoprint_netconnectd/__init__.py:144-146 | a failed exchange always becomes `RuntimeError(prefix + content)` in the helpers, never a `TypeError` |
| Netconnectd.DaemonErrorRaised | octoprint_netconnectd/__init__.py:171-175 | a daemon answering `{"error": text}` makes the helper raise its prefix followed by `text` |
| Netconnectd.DaemonResultReturned | octoprint_netconnectd/__init__.py:141-148 | a daemon answering `{"result": value}` makes the helper return `value` |
| Netconnectd.NetworkRecordFields | octoprint_netconnectd/__init__.py:138 | `NetworkRecord`: a record converts exactly when it is a dict with all four fields, and it keeps `ssid`, `address` and `encrypted` and renames `signal` to `quality` |
| Netconnectd.SingleNetwork | octoprint_netconnectd/__init__.py:136-139 | a list of one convertible record becomes the list of its one converted record |
| Netconnectd.ListWifiExample | octoprint_netconnectd/__init__.py:126-139 | a one-network answer from the daemon becomes the one-record list with `quality` taken from `signal` |
| Netconnectd.WifiPresentCases | octoprint_netconnectd/__init__.py:74 | `WifiPresent`: `status["wifi"]["present"]` succeeds exactly when both levels are dicts holding those keys, and gives the truth value of `present` |
| Netconnectd.Route | octoprint_netconnectd/__init__.py:87-113 | `refresh_wifi` is served without the admin check of line 92; every other command is refused unless that check passes; each admin command reaches its own helper; unknown commands do nothing |
| Netconnectd.ConfigureCall | octoprint_netconnectd/__init__.py:95-101 | a missing `psk` raises `KeyError("psk")`, then a missing `ssid` raises `KeyError("ssid")`, then a non-ASCII unicode `ssid` makes the log line raise `UnicodeEncodeError`; otherwise the call gets `ssid`, `psk` and `force`, defaulting to false |
| Netconnectd.NonAsciiSsidRaises | octoprint_netconnectd/__init__.py:96-101 | `{"ssid": u"Café", "psk": ...}` raises `UnicodeEncodeError` at index 3 before anything is configured |
| Netconnectd.ConfigureOutcomeCases | octoprint_netconnectd/__init__.py:150-163 | configuring succeeds exactly when both replies do, and each failure carries the prefix of the step that failed |
| Netconnectd.OverviewCases | octoprint_netconnectd/__init__.py:71-85 | `Overview`: a failed status becomes `{"error": "Error while querying status: ..."}`; without Wi-Fi present the list is empty and the list reply does not matter; with Wi-Fi present the list or its error is reported |
| Netconnectd.Plugin.constructor | octoprint_netconnectd/__init__.py:21-22 | a new plugin has no address and has sent nothing |
| Netconnectd.Plugin.Initialize | octoprint_netconnectd/__init__.py:24-25 | the address becomes the configured socket path |
| Netconnectd.Plugin.OnSettingsSave | octoprint_netconnectd/__init__.py:38-40 | after a save the settings are the saved ones and the address follows their socket path |
| Netconnectd.Plugin.Hostname | octoprint_netconnectd/__init__.py:27-34 | the hostname is never empty: the configured name when it is set and non-empty, otherwise the machine's name with `.local` |
| Netconnectd.Plugin.SendMessage | octoprint_netconnectd/__init__.py:189-233 | each message uses the next connection, is logged once, returns that connection's `Exchange`, and a false flag comes with a string |
| Netconnectd.Plugin.BuildNetworks | octoprint_netconnectd/__init__.py:136-139 | the loop builds exactly the list `Networks` specifies, or raises what it specifies |
| Netconnectd.Plugin.GetWifiList | octoprint_netconnectd/__init__.py:126-139 | one `list_wifi` message is sent, with `force` only when asked for, and the result is the converted list or the prefixed error |
| Netconnectd.Plugin.Command | octoprint_netconnectd/__init__.py:141-148 | one argument-less message is sent, and its reply is checked with the helper's prefix |
| Netconnectd.Plugin.GetStatus | octoprint_netconnectd/__init__.py:141-148 | one `status` message is sent, and the status is returned verbatim or the prefixed error raised |
| Netconnectd.Plugin.ConfigureAndSelectWifi | octoprint_netconnectd/__init__.py:150-163 | `config_wifi` is sent with `ssid`, `psk` and `force`, and `start_wifi` is sent after it only if it succeeded |
| Netconnectd.Plugin.ForgetWifi | octoprint_netconnectd/__init__.py:165-169 | one `forget_wifi` message is sent, and a failure raises with the forgetting prefix |
| Netconnectd.Plugin.Reset | octoprint_netconnectd/__init__.py:171-175 | one `reset` message is sent, and a failure raises with the factory-reset prefix |
| Netconnectd.Plugin.StartAccessPoint | octoprint_netconnectd/__init__.py:177-181 | one `start_ap` message is sent, and a failure raises with the starting-ap prefix |
| Netconnectd.Plugin.StopAccessPoint | octoprint_netconnectd/__init__.py:183-187 | one `stop_ap` message is sent, and a failure raises with the stopping-ap prefix |
| Netconnectd.Plugin.OnApiCommand | octoprint_netconnectd/__init__.py:87-113 | for each route: the messages sent, in order, and the answer; a refused or unknown command sends nothing, and helper exceptions escape |
| Netconnectd.Plugin.OnApiGet | octoprint_netconnectd/__init__.py:71-85 | sends `status`, then an unforced `list_wifi` only when Wi-Fi is present, and answers with `Overview` of the replies and the hostname |

## Left out

- `json.loads` and `repr` are parameters (`JsonLibrary`). The end-to-end lemmas require that `json.loads` reads back what `json.dumps` wrote.
- Floating-point JSON numbers are not modelled. The `encoding="utf8"` argument only matters for byte strings, which decoded values never are.
- Dict key order: the model's objects keep the order they are built in. Python 2 dicts iterate in hash order, so the order of the keys on the wire is not modelled.
- Duplicate keys: a model object may repeat a key, which a decoded dict never does. Lookups take the last binding as a dict would, but `Dumps` writes every repeated member where Python writes one, for instance for an object-valued `ssid` copied from a request.
- Socket creation and `settimeout` (lines 197-198) run outside the `try`. Their failures, and a bad `timeout` setting, are not modelled. A timeout shows up as a scripted `recv` exception.
- `recv(16)` returns at most 16 bytes. The model's chunks have any length, so its results hold for every chunking.
- `sendall` either writes everything or raises before writing. A partial write before an exception is not modelled.
- A daemon that closes the connection without a terminator makes the loop spin. `Protocol.Talk` and `Netconnectd.Plugin.SendMessage` require `Answers` of the script, so that case is outside their contracts.
- Exception texts beyond the prefixes follow Python 2's wording for the `TypeError`s the core can raise (`TypeFaultText`), with decoded strings being `unicode`; a socket error's `message` is a parameter of the script. An error while formatting `e.message` is not modelled.
- `TypeName`: a JSON integer beyond the machine word decodes to a Python `long`, whose `TypeError` texts say `long`; the model names every integer `int`.
- Logging (`self._logger`) is left out as output. Building the `configure_wifi` log line at lines 97/99 is modelled, because it can raise: its `KeyError` for a missing `ssid` and its `UnicodeEncodeError` for a non-ASCII `ssid` (`ConfigureCall`). The `psk`-dependent choice between the two lines does not change the outcome, since both format the same `ssid`.
- Flask's `jsonify` and `make_response`: the model returns the JSON value or the status pair they would wrap.
- `admin_permission.can()` is the `isAdmin` parameter.
- The settings store is the `settings` field. `SettingsPlugin.on_settings_save` becomes storing the saved settings.
- `socket.gethostname()` is the `machineName` parameter.
- `get_settings_defaults`, `get_template_configs`, `get_api_commands` and `get_assets` only return constant tables.
- `is_api_adminonly` returns True (lines 68-69), so the host refuses non-admin callers before `on_api_command` and `on_api_get` run. The model leaves that gate out and takes only line 92's check, as `isAdmin`.
- `__plugin_check__` and `__plugin_load__` are platform checks and registration with the host, and are left out.
