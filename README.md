# ios-burp-setup in Dafny

`ios_burp_setup.py` builds an Apple configuration profile that puts an iOS
device on a Wi-Fi network with a manual HTTP proxy (Burp Suite on port 8082),
writes it to `burp-wifi-proxy.mobileconfig`, and serves it over HTTP so the
device can install it. This project models the three pieces of that script
that carry logic, and proves what they promise:

- `identifier.dfy` (module `Identifier`): `_sanitize_identifier`, the filter
  that turns a network name into the tail of a reverse-DNS identifier, and the
  `or "wifi"` fallback of `build_profile`. Python's `str.isalnum` is a lookup
  in the Unicode database; it is not re-implemented but passed in as a
  classifier `alnum: char -> bool`, so every result holds for any Unicode
  table. Where the literal `"wifi"` must pass the filter, the lemmas assume
  only that ASCII letters and digits are alphanumeric (`AsciiAlnum`), which
  Python guarantees.
- `profile.dfy` (module `Profile`): `build_profile` up to the dictionary it
  hands to `plistlib.dumps`. The profile and its Wi-Fi payload are records
  (`ConfigProfile`, `WifiPayload`); `ProfileDict` writes them as dictionaries
  with the document's key names, and `ReadProfile` reads such a dictionary
  back. The two `uuid.uuid4()` values are parameters.
- `server.dfy` (module `Server`): `ProfileHandler.do_GET`. `Route` is the
  response as a value; the class `ProfileHandler` sends it step by step
  (`send_response`, `send_header`, `end_headers`, `wfile.write`,
  `send_error`) and `DoGet` is proved to leave on the connection the status,
  the headers `do_GET` sends itself and the body of `Route(...)`. Whether the profile file exists and what it holds are one
  input, `file: Option<seq<byte>>`.
- `wrappers.dfy`: the `Option` type.

Two points of the code are easy to misread and are modelled as written: the
filter keeps every character `isalnum` accepts, not only `[A-Za-z0-9]`, and
`strip(".")` removes dots from both ends of the name, not only trailing ones.

## Model

| member | source | states |
|---|---|---|
| `Identifier.KeepAllowed` | ios_burp_setup.py:32 | the filtered name holds only alphanumeric, `-` or `.` characters, is an order-preserving subsequence of the name, and holds every allowed character exactly as often as the name does and no other |
| `Identifier.KeepAllowedUnique` | ios_burp_setup.py:32 | those three properties determine the filter's result: any string that has them is the filtered name |
| `Identifier.KeepAllowedIdentity` | ios_burp_setup.py:32 | a string made only of allowed characters passes the filter unchanged |
| `Identifier.StripLeadingDots` | ios_burp_setup.py:32 | `lstrip(".")`: the result is a suffix of the input, does not start with a dot, and everything removed was a dot |
| `Identifier.StripTrailingDots` | ios_burp_setup.py:32 | `rstrip(".")`: the result is a prefix of the input, does not end with a dot, and everything removed was a dot |
| `Identifier.StripDots` | ios_burp_setup.py:32 | `strip(".")`: the result is a slice of the input with only dots cut from either end and no dot left at either end |
| `Identifier.StripDotsIdentity` | ios_burp_setup.py:32 | a string with no dot at either end is left as it is |
| `Identifier.StripDotsKeepsHyphenEnds` | ios_burp_setup.py:32 | `strip(".")` removes only dots: a `-` at either end of a non-empty string is still at that end afterwards |
| `Identifier.StripDotsAllowed` | ios_burp_setup.py:32 | stripping a string made of allowed characters leaves one made of allowed characters |
| `Identifier.Sanitize` | ios_burp_setup.py:31-32 | the sanitised identifier is the filtered name with only dots cut from either end and none left there; so it holds only allowed characters, has no dot at either end, and is an order-preserving subsequence of the input |
| `Identifier.SanitizeIdempotent` | ios_burp_setup.py:31-32 | sanitising a sanitised identifier returns it unchanged |
| `Identifier.SanitizeKeepsHyphenEnds` | ios_burp_setup.py:32 | only dots are stripped: a `-` at the start or end of the filtered name is still the first or last character of the identifier |
| `Identifier.ProfileIdentifier` | ios_burp_setup.py:40 | the identifier embedded in the profile is never empty, has no dot at either end, and is the sanitised name, or `"wifi"` exactly when that is empty |
| `Identifier.SanitizeFallback` | ios_burp_setup.py:40 | the fallback `"wifi"` is itself a sanitised identifier |
| `Identifier.ProfileIdentifierSafe` | ios_burp_setup.py:40 | for every network name the embedded identifier is non-empty, made of allowed characters and free of edge dots |
| `Identifier.ProfileIdentifierIdempotent` | ios_burp_setup.py:40 | using the embedded identifier as a network name yields the same identifier |
| `Profile.BuildProfile` | ios_burp_setup.py:35-66 | the profile has exactly one payload, whose `SSID_STR` and `ProxyServer` are the inputs verbatim, and the two `PayloadUUID`s are the two supplied UUIDs |
| `Profile.BuildProfileWellFormed` | ios_burp_setup.py:37-66 | every built profile is a `Configuration` of version 1 with one `com.apple.wifi.managed` payload of version 1, manual proxy on port 8082, auto-join on, not hidden, display name `ssid + " Wi-Fi"`, and both identifiers made of their fixed prefix and the same safe identifier |
| `Profile.BuildProfileInputs` | ios_burp_setup.py:48-56 | `SSID_STR` is the raw ssid, `PayloadDisplayName` is `ssid + " Wi-Fi"`, `ProxyServer` is the proxy host, `ProxyServerPort` is 8082, and the UUIDs are the supplied ones |
| `Profile.BuildProfileIdentifiers` | ios_burp_setup.py:40-61 | the profile identifier is `"com.example.burp-proxy."` and the payload identifier `"com.example.wifi."` followed by the sanitised name, or by `"wifi"` when that is empty |
| `Profile.BuildProfileDeterministic` | ios_burp_setup.py:35-66 | two builds from the same ssid and proxy host differ only in the two UUIDs |
| `Profile.BuildProfileIdentifiersFromSanitized` | ios_burp_setup.py:40-61 | the identifiers depend on the ssid only through its sanitised form, so names that sanitise alike share identifiers |
| `Profile.KeyNameRoundTrip` | ios_burp_setup.py:41-66 | each dictionary key has its own spelling (`PayloadUUID`, `HIDDEN_NETWORK`, `SSID_STR`, ...), so no entry can shadow another |
| `Profile.PayloadDict` | ios_burp_setup.py:43-57 | the payload dictionary has exactly the thirteen Wi-Fi payload keys |
| `Profile.ProfileDict` | ios_burp_setup.py:41-66 | the profile dictionary has exactly the eight outer keys, and `PayloadContent` is the list of payload dictionaries |
| `Profile.PayloadRoundTrip` | ios_burp_setup.py:43-57 | reading back a payload dictionary gives the payload |
| `Profile.PayloadsRoundTrip` | ios_burp_setup.py:42-58 | reading back the `PayloadContent` list gives the payloads in order |
| `Profile.ProfileRoundTrip` | ios_burp_setup.py:41-66 | reading back the profile dictionary gives the profile: the dictionary encoding loses nothing |
| `Profile.TestNetDocument` | ios_burp_setup.py:35-66 | the document built for `"TestNet"` and `"10.0.0.5"` reads back as a `Configuration` with exactly one `com.apple.wifi.managed` payload |
| `Server.Route` | ios_burp_setup.py:87-128 | every request is answered with status 200 or 404 |
| `Server.RouteSucceeds` | ios_burp_setup.py:87-128 | the status is 200 exactly for `/` or the empty path, and for `/download` while the file exists |
| `Server.RouteLanding` | ios_burp_setup.py:88-112 | `/` and the empty path give 200, `Content-Type: text/html; charset=utf-8` and the landing page, whatever the file's state |
| `Server.RouteDownload` | ios_burp_setup.py:114-126 | `/download` gives 200, `application/x-apple-aspen-config`, `attachment; filename=<name>` and the file's bytes while the file exists, and 404 "Profile not found" when it is missing |
| `Server.RouteOther` | ios_burp_setup.py:128 | any other path gives 404 "Not found" |
| `Server.RouteDisclosesOnlyDownload` | ios_burp_setup.py:114-126 | the file's bytes are sent exactly for `/download` with the file present, and are the bytes on disk |
| `Server.FileDeletedAfterStart` | ios_burp_setup.py:114-117 | once the file is gone `/download` turns from 200 to 404 while `/` answers as before |
| `Server.DownloadWithQueryIsNotFound` | ios_burp_setup.py:114 | matching is exact: `/download?x` is 404 |
| `Server.ProfileHandler.constructor` | ios_burp_setup.py:83-85 | a new handler holds the profile's name and has sent nothing |
| `Server.ProfileHandler.DoGet` | ios_burp_setup.py:87-128 | the sends of `do_GET` leave the status, the headers `do_GET` sends itself and the single body of `Route(path, name, file)` |
| `Server.ServeDownload` | ios_burp_setup.py:155 | a handler bound to the profile path `Path.cwd() / PROFILE_FILENAME` serves a download with status 200, `Content-Type: application/x-apple-aspen-config`, the given bytes and `attachment; filename=burp-wifi-proxy.mobileconfig` |

## Left out

- `get_local_ip`: a UDP socket lookup of the LAN address with a fallback to `127.0.0.1`; the proxy host is a parameter of `BuildProfile` instead.
- `print_qr`: a wrapper over the external `qrcode` library.
- `run_server`, the threading server, `daemon_threads` and the swallowing of `ConnectionResetError` in `handle_one_request`: concurrency and transport faults; each request is modelled on its own by a fresh `ProfileHandler`.
- `plistlib.dumps`: the XML serialisation of the dictionary is a foreign library; the model stops at the dictionary and its key names. What that costs: `plistlib` raises `ValueError` for a string holding a C0 control character other than tab, LF or CR, and rewrites CR as LF, so `build_profile` fails for an ssid such as `"a\x01b"` (it reaches `SSID_STR` and `PayloadDisplayName`) and alters one holding a CR; the model's `BuildProfile` is total and keeps the ssid as given.
- `uuid.uuid4()`: the UUIDs are parameters, so their freshness and distinctness, which hold only with high probability, are not stated.
- `write_profile`, `Path.exists`, `Path.read_bytes` and `main`'s argument parsing and printing: file and console I/O; the file's presence and bytes are the input `file` of `Route`, and a file that changes between the existence check and the read is not modelled.
- The text of the landing page: the body `LandingPage` stands for it.
- `Server.ProfileHandler.SendResponse`: `http.server`'s `send_response` also logs the request and sends a `Server` header and a `Date` header read from the clock; these are library code and are not modelled, so the recorded headers are only those `do_GET` sends itself.
- `Server.ProfileHandler.SendError`: the headers and HTML page that `http.server` generates in `send_error` are library code and are not modelled; the error response records only its status and message.
- `Identifier.Sanitize`: Python strings may hold lone surrogate code points, which Dafny's `char` cannot; such names are outside the model.
