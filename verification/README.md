# Verified model of the NSO exec gateway

This project models the `exec_cmd` tool of an MCP server that runs commands on
network devices through a Cisco NSO controller's RESTCONF API. The tool does two
things around one HTTP POST:

- **Request building** (module `ExecRequest`, `exec_request.dfy`). From a device
  name and a command it builds three things. The URL is
  `http://<host>:<port>/restconf/operations/tailf-ncs:devices/device=<device>/live-status/exec/any`.
  The headers are `Content-Type` and `Accept`, both `application/yang-data+json`.
  The JSON body is `{"input": {"args": <command>}}`.
- **Response normalization** (module `ExecResponse`, `exec_response.dfy`). The
  decoded response envelope is searched for the output member of a known NED
  (device driver) family. The families are searched in a fixed priority order:
  `tailf-ned-cisco-ios-xr-stats:output` comes first and
  `tailf-ned-cisco-ios-stats:output` second. The `result` member of the first one
  found is returned. An envelope with neither member is returned whole.

Supporting modules:

- `Wrappers` (`wrappers.dfy`) holds `Option` and `Result`.
- `JsonValues` (`json.dfy`) holds the decoded-JSON datatype `Json`. It also
  holds `Subscript`, which models Python's `value["key"]` on a decoded value:
  - a dict without the key raises `KeyError` (`KeyMissing`);
  - a list, string, number, boolean or `None` raises `TypeError` (`NotSubscriptable`).

Each property is stated against a partner:

- The URL has an inverse parser, `ParseExecUrl`, and the body has an inverse
  decoder, `ExecArgs`. Round trips are proved in both directions.
- The two-branch normalizer is proved equal to a reference first-match search
  over the priority list (`FirstPresent`, `NormalizeByPriority`).
- An encoder, `WrapOutput`, wraps output the way a driver family does.
  Normalizing what it produces gives the output back.

The tool is annotated `-> str` (server.py:20), but its fallback returns the
decoded dict (server.py:64). The model therefore types the output as `Json`.
The `result` member is also passed through with whatever JSON type it has.

## Model

| member | source | states |
|---|---|---|
| JsonValues.Subscript | server.py:60-62 | `v["result"]` succeeds exactly when `v` is an object holding that member, and then yields it. It fails with a KeyError when `v` is an object without the member, and with a TypeError for every other JSON value. |
| ExecRequest.ExecHeaders | server.py:32-35 | The headers are exactly `Content-Type` and `Accept`, and both carry `application/yang-data+json`. |
| ExecRequest.BuildExec | server.py:31-48 | The device name is embedded in the URL verbatim and reads back from it, whatever characters it contains. The URL length is the root, the fixed path pieces and the device together. The headers are the fixed pair. The body decodes to exactly the command, with no other fields. The root comes from `RestconfRoot` (server.py:31), and the body comes from `ExecBody` (server.py:43-48). |
| ExecRequest.ExecUrlRoundTrip | server.py:40 | Parsing the URL built around any device name under any RESTCONF root returns that device name. |
| ExecRequest.ParsedUrlIsBuilt | server.py:40 | Any URL from which the parser reads a device name is exactly the exec URL built for that device. |
| ExecRequest.ExecUrlInjective | server.py:31-40 | Two exec calls on one controller never build the same URL string for different devices. |
| ExecRequest.ExecArgsInvertsBody | server.py:41-48 | A body decodes to command `c` if and only if it is `{"input": {"args": c}}`. |
| ExecResponse.FamilyResult | server.py:60-62 | A recognised family's output yields its `result` exactly when it is an object with that member. Otherwise it fails, naming the family and telling a missing key from a non-object. It never falls back. |
| ExecResponse.FirstPresent | server.py:59-64 | The search returns the index of a listed key that is in the envelope, and no earlier listed key is present. It returns nothing exactly when no listed key is present. |
| ExecResponse.KnownFamiliesSearch | server.py:59-63 | Over the known families, the first-match search picks IOS-XR when it is present, IOS when only IOS is present, and nothing otherwise. |
| ExecResponse.NormalizeExec | server.py:58-66 | Normalization equals the first-match search over the known families in priority order. The envelope comes back unchanged exactly when neither known member is present. Every failure records which known family member was selected, and that member is present in the envelope. Python's own exception does not carry that name. |
| ExecResponse.ResultIsSmaller | server.py:59-64 | A family's `result` is a proper part of the envelope, so it never equals the envelope that the fallback returns. |
| ExecResponse.WrappedOutputRoundTrip | server.py:58-62 | Suppose known family number `i` wraps an output as `{"result": output}` and no family of higher priority is present. Then the envelope normalizes to that output, whatever other members it has. |
| ExecResponse.IosXrOutputTaken | server.py:59-60 | When the IOS-XR member is an object with `result`, the output is that `result`. |
| ExecResponse.IosOutputTaken | server.py:61-62 | When only the IOS member is present and it has `result`, the output is that `result`. |
| ExecResponse.IosXrTakesPriority | server.py:59-62 | When the IOS-XR member is present, the outcome is unchanged by any value of the IOS member, and unchanged if the IOS member is removed. |
| ExecResponse.RecognisedWithoutResultFails | server.py:59-62 | If the selected family's value is not an object with `result`, normalization fails and names that family. It does not return the raw envelope. |
| ExecResponse.UnrelatedMembersIgnored | server.py:59-62 | When a known family is present, adding or changing any member outside the known families does not change the outcome. |

## Left out

- The HTTP POST, HTTP Basic authentication and `response.json()` decoding (server.py:36, 50-55) are network I/O and library code. The normalizer takes the decoded envelope as its input. The HTTP status is never checked, so any body that decodes reaches the normalizer.
- `response.json()` is called up to three times on one response. Each call decodes the same body, so the model decodes once.
- The controller address, port and credentials (server.py:12-15) are configuration. Host and port are parameters (`Controller`), and the credentials are not modelled.
- The FastMCP server, the `@mcp.tool` registration and the stdio transport (server.py:17, 19, 68, 72-73) are framework glue.
- The `add` tool (server.py:68-70) is untyped, and its meaning depends on Python's dynamic `+` for whatever operands arrive.
- Envelopes that are not JSON objects are not modelled. Python's `in` on a list, a string or `None` means membership, substring or a `TypeError`, which is outside the object case the tool is written for.
- The device name is a string in the model. Python formats a non-string device with `str()` inside the f-string, and that formatting is not modelled.
- server.py applies no encoding to the device name itself. The HTTP library re-quotes the URL before sending it: spaces and non-ASCII characters become percent-escapes. It also splits the URL at `?` and `#`, and it never sends the fragment. None of that is modelled. The URL lemmas are about the string built at server.py:40, not about the resource that string reaches.
- The fallback (server.py:64) returns the decoded dict, which keeps the envelope's member order. `JObj` holds a map, so that order is not kept. No logic in the core depends on it.
- Configuration dry-run and commit operations are not modelled, because no code for them exists in server.py.
- JSON numbers are integers in the model. Floating-point values are only carried through, never inspected.
