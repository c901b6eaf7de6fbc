# tplink-archer in Dafny

A model of the Python client for TP-Link Archer router firmware. The model has two parts.

- **The bracketed-section text codec** (`tplink_archer/models.py`). A router answers in a plain-text "stack" of sections. Each section is an identifier line such as `[LAN_HOST_ENTRY#1,0,0,0,0,0#0,0,0,0,0,0]0,4`, followed by `key=value` lines. `Stack` splits the text into chunks at each `[`, parses each chunk into a `Section`, looks sections up by identifier, writes them back as text, and compares two stacks by shape only. The settings records sit beside the codec:
  - `raw_identifier`;
  - `DHCPLease` and its `to_section`;
  - `PortForwardingRule`, whose constructor fills in missing port ends, and its `to_section`.
- **The session** (`tplink_archer/connection.py`). An `ArcherConnection` holds `is_authenticated` and `headers`. It works as follows:
  - it authenticates with a basic-auth cookie and makes at most two probes;
  - it guards every API request (authenticated, a known request type, status 200);
  - it maps the parsed answers to records, dropping the `[error]0` sentinel section;
  - it fills the lease create, delete and toggle command templates of `tplink_archer/constants.py`.

HTTP is modelled as a `Transport` object. It logs every request sent, and the n-th request gets the answer `respond(n, request)` of a fixed oracle.

Modules, one per concern:

- `Wrappers` (`wrappers.dfy`): `Option`, `Result` and `Outcome`.
- `Exceptions` (`exceptions.dfy`): the error kinds raised by the code. `tplink_archer/exceptions.py` is not part of this model; only the names of its classes are used.
- `Text` (`text.dfy`): the Python string operations the code relies on, namely `s[1:]`, `str.find` and `str.split`, plus `Join` as the inverse of `Split`.
- `Models` (`models.dfy`): `models.py`. The `Stack` class keeps `sections` as a field that `parse` replaces. `DhcpLease` is a class, because `toggle_dhcp_lease` changes its flag in place. Every loop of the source is a method proved equal to a specification function.
- `Codec` and `CodecScenario` (`roundtrip.dfy`): the round trip through `to_text` and back, the crash on the trailing newline, and the stack-equality test.
- `Constants` (`constants.dfy`): the URLs, queries and command templates, transcribed verbatim, with the templates split at their placeholders.
- `Connection` (`connection.dfy`): `ArcherConnection` over the transport.
- `ConnectionScenario` (`connection_scenario.dfy`): concrete oracles covering the authentication probe sequences, the guard order and the lease toggle.

Behaviour of the code that the model keeps as written:

- **The character before each `[` is dropped when splitting.** In a well-formed stack that character is the newline between two sections.
- **One line of a section, `key=value`:**
  - The key is the text before the first `=`.
  - The value is the text between the first and the second `=`; anything after a second `=` is lost.
  - A line without `=` makes the unguarded `pair_split[1]` raise `IndexError`. Empty lines are not skipped: an empty value line, such as the one a trailing newline leaves, raises `IndexError` too. `StackParseError` can never be raised for string input.
- **A repeated key keeps its first position and takes the newer value.**
- **Missing fields read as `None`; the section text prints them as `None`.** `values.get` gives Python's `None` for a missing key (`Option<string>`), and an f-string writes it as `None`.
- **Port forwarding defaults.** An empty `external_port_end` overwrites `internal_port_end` with `external_port`, and the external end stays as given.
- **Authentication when already authenticated.** A session that is already authenticated sends no probe and succeeds, whatever the new credentials.

## Model

| member | source | states |
|---|---|---|
| Text.Find | tplink_archer/models.py:94 | `str.find`: -1 exactly when the character is absent, otherwise the index of its first occurrence |
| Text.Split | tplink_archer/models.py:115 | `str.split`: at least one piece, exactly one when the separator is absent, and the first piece is the text up to the first separator |
| Text.SplitCount | tplink_archer/models.py:115 | there is one piece more than there are separators |
| Text.SplitPieces | tplink_archer/models.py:115 | no piece, at any index, holds the separator |
| Text.JoinSplit | tplink_archer/models.py:115 | joining the pieces of a split with the separator gives back the text |
| Text.SplitJoin | tplink_archer/models.py:121 | splitting a join of separator-free pieces gives back the pieces |
| Models.Get | tplink_archer/models.py:37 | `dict.get`: `None` for an absent key, otherwise the value stored under it |
| Models.PutPosition | tplink_archer/models.py:122 | `dict.update` of one key: an existing key keeps its position and takes the new value; a new key is appended |
| Models.PutGet | tplink_archer/models.py:122 | after an update the key reads as the new value |
| Models.PutOther | tplink_archer/models.py:122 | an update leaves every other key's value alone |
| Models.PutKeys | tplink_archer/models.py:122 | an update adds exactly its key to the key set |
| Models.ValuesText | tplink_archer/models.py:35-38 | the value lines are empty or end in a newline |
| Models.SectionText | tplink_archer/models.py:29-40 | a section's text starts with its identifier and a newline and always ends in a newline |
| Models.SectionToText | tplink_archer/models.py:29-40 | the accumulating loop of `Section.to_text` yields the identifier line followed by one `key=value` line per key, in insertion order |
| Models.StackTextAppend | tplink_archer/models.py:152-159 | the text of two lists of sections is the concatenation of their texts |
| Models.Chunks | tplink_archer/models.py:89-105 | the stack's chunks: always at least one |
| Models.ChunksShape | tplink_archer/models.py:89-105 | there is one chunk more than there are `[` in `data[1:]`, and no chunk holds a `[` after its first character |
| Models.ChunksReassemble | tplink_archer/models.py:89-105 | there is one dropped character fewer than there are chunks, and each chunk but the last, followed by its dropped character, then the last chunk, concatenate back to `data` |
| Models.DroppedBeforeOpen | tplink_archer/models.py:89-105 | each dropped character is the one directly in front of a `[`: the text glued back after it starts with that `[` (for `"a[b"` the chunks are `""` and `"[b"`, and `a` is dropped) |
| Models.GetSections | tplink_archer/models.py:82-105 | the `while` loop of `__get_sections` terminates and returns exactly the chunks |
| Models.ParsePair | tplink_archer/models.py:121-122 | a line fails, with `IndexError`, exactly when it has no `=` |
| Models.ParsePairSplit | tplink_archer/models.py:121-122 | a line with `=` parses; the key is the text before the first `=`, and the value is the text between the first and the second `=` |
| Models.ParsePairs | tplink_archer/models.py:119-122 | the loop over value lines fails only with `IndexError` |
| Models.ParsePairsFails | tplink_archer/models.py:120-122 | the value lines fail exactly when some line has no `=` |
| Models.ParsePairsUntouched | tplink_archer/models.py:119-122 | a key no line names keeps the value it had |
| Models.ParsePairsLastWins | tplink_archer/models.py:119-122 | a repeated key holds the value of its last line |
| Models.ParsePairsKeys | tplink_archer/models.py:119-122 | the keys of the parsed dict are the prior keys plus the keys of the lines |
| Models.ParseChunk | tplink_archer/models.py:115-124 | a failure is an `IndexError` |
| Models.ParseChunkIdentifier | tplink_archer/models.py:115-117 | a parsed chunk's identifier is its text before the first newline |
| Models.ParseLinesToSection | tplink_archer/models.py:108-124 | the `for` loop of `__parse_lines_to_section` gives exactly `ParseChunk` |
| Models.ParseSections | tplink_archer/models.py:126-135 | every chunk parsed in order: one section per chunk, or `IndexError` |
| Models.ParseSectionsEach | tplink_archer/models.py:133-135 | the list fails exactly when some chunk fails, and otherwise section i is chunk i parsed |
| Models.ParseStack | tplink_archer/models.py:55-65 | a parsed stack has as many sections as chunks, so at least one; a failure is an `IndexError` |
| Models.ParseSectionList | tplink_archer/models.py:126-135 | the in-place loop of `__parse_sections` gives exactly `ParseSections` |
| Models.FirstNamed | tplink_archer/models.py:76-78 | the index of the first section with the identifier, or none when no section has it |
| Models.Stack.New | tplink_archer/models.py:46-53 | `Stack(data)`: a new stack holding the parsed sections, or the parse error |
| Models.Stack.Parse | tplink_archer/models.py:55-65 | `parse` replaces `sections` wholesale by the parsed list, and leaves them unchanged when parsing raises |
| Models.Stack.GetSection | tplink_archer/models.py:67-79 | `None` exactly when there are no sections; otherwise the first section with the identifier, or `SectionNotFoundError` exactly when none has it |
| Models.Stack.ToDict | tplink_archer/models.py:137-150 | one record per section in order, with its identifier and values |
| Models.Stack.ToText | tplink_archer/models.py:152-159 | the sections' texts concatenated in order |
| Models.Stack.Equals | tplink_archer/models.py:161-176 | equal exactly when the lengths match and, pair by pair, the identifiers and the key sets are equal |
| Models.SchemaEqualIsEquivalence | tplink_archer/models.py:161-176 | stack equality is reflexive, symmetric and transitive |
| Models.SchemaEqualIgnoresValues | tplink_archer/models.py:161-176 | changing values without changing keys keeps stacks equal |
| Models.RawIdentifier | tplink_archer/models.py:195-197 | `raw_identifier` holds no `]`, is a prefix of `identifier[1:]`, and stops at its first `]` |
| Models.BaseToSection | tplink_archer/models.py:199-206 | a base element's section text is its identifier and a newline |
| Models.DhcpLease.constructor | tplink_archer/models.py:219-223 | a lease holds the fields it was given |
| Models.DhcpLease.ToSection | tplink_archer/models.py:231-245 | keys `chaddr`, `yiaddr` and `enable`, holding the MAC, the IP, and '1' when the lease is enabled or '0' when it is not |
| Models.NewPortForwardingRule | tplink_archer/models.py:250-266 | an empty internal end defaults to the internal port; an empty external end overwrites the internal end with the external port and leaves the external end unset |
| Models.PortRangesOfNewRule | tplink_archer/models.py:276-282 | the two port ranges of a newly built rule, in each defaulting case |
| Models.RuleToSection | tplink_archer/models.py:284-302 | the rule's identifier, and `portMappingEnabled` is '1' when the rule is enabled or '0' when it is not |
| Models.RuleSectionKeys | tplink_archer/models.py:290-298 | a rule's section holds exactly the seven protocol fields |
| Codec.SectionTextBody | tplink_archer/models.py:29-40 | a section's text is its identifier line and `key=value` lines joined by newlines, plus a final newline |
| Codec.StackTextBodies | tplink_archer/models.py:152-159 | a stack's text is its sections' bodies joined by newlines, plus a final newline |
| Codec.ChunksOfJoin | tplink_archer/models.py:89-105 | splitting bodies joined by newlines, each opening with its only `[`, gives back the bodies: the dropped characters are exactly the joining newlines |
| Codec.ParsePairsLines | tplink_archer/models.py:119-122 | parsing the `key=value` lines of distinct, plain keys and values appends exactly those entries |
| Codec.ParseBody | tplink_archer/models.py:115-124 | a well-formed section's body parses back to the section |
| Codec.RoundTrip | tplink_archer/models.py:63-65 | parsing `to_text()` without its final newline gives back the same sections, for a non-empty list of well-formed sections |
| Codec.TrailingNewlineFails | tplink_archer/models.py:120-122 | parsing `to_text()` as it is, with its final newline, fails with `IndexError` |
| Codec.ChunkEndingInNewlineFails | tplink_archer/models.py:115-122 | a chunk that ends in a newline leaves an empty last line, which fails with `IndexError` |
| Codec.ChunksAppendNewline | tplink_archer/models.py:89-105 | a newline appended to the text lands at the end of the last chunk |
| CodecScenario.ParseRaw1 | tests/test_stack.py:5-8 | the first test text parses to two sections `[1.0]0` with `foo=bar` and `foob=barf` |
| CodecScenario.ParseRaw2 | tests/test_stack.py:12-13 | the second test text parses to `[1.0]0` and `[2.0]0` with the new values |
| CodecScenario.StackEqualsScenario | tests/test_stack.py:10-15 | the same text parsed twice gives equal stacks; a different second identifier gives unequal stacks |
| CodecScenario.SchemaScenario | tests/test_stack.py:10-15 | the shape equality of the test's section lists |
| CodecScenario.StackEqualsTest | tests/test_stack.py:4-15 | the test run on `Stack` objects: equal before re-parsing, unequal after |
| CodecScenario.StrayFirstCharacter | tplink_archer/models.py:89-105 | for `"a[b"`, where the first `[` is the second character, the chunks are `""` and `"[b"` and the dropped character is `a` |
| Constants.WifiClientsQuery | tplink_archer/connection.py:172-174 | the 5 GHz query for the 5 GHz band, the 2.4 GHz query otherwise |
| Constants.ToggleTargetOfCommand | tplink_archer/constants.py:61 | a toggle command carries exactly the raw identifier and the flag it was filled with |
| Constants.CreateCommandFlag | tplink_archer/constants.py:63-66 | a create command starts with the fixed header, and its flag is '1' exactly when the lease is to be enabled |
| Constants.DeleteTargetOfCommand | tplink_archer/constants.py:68 | a delete command carries exactly the raw identifier it was filled with |
| Connection.Transport.Send | tplink_archer/connection.py:79-83 | a request sent is appended to the log and answered by the oracle for its position |
| Connection.Checked | tplink_archer/connection.py:105-108 | a response passes exactly when its status is 200, unchanged; otherwise `RequestError` |
| Connection.Probes | tplink_archer/connection.py:50-56 | one probe when the first answer is 200, otherwise two |
| Connection.NonSentinelMembers | tplink_archer/connection.py:155-157 | a section is kept exactly when it is in the list and is not `[error]0` |
| Connection.NonSentinelAppend | tplink_archer/connection.py:155-157 | filtering keeps order: the filter of two lists is the two filters one after the other |
| Connection.OneSentinelOneRow | tplink_archer/connection.py:157 | a sentinel and one ordinary section, in either order, give exactly that one section |
| Connection.ProjectedSnoc | tplink_archer/connection.py:155-162 | one more section adds its record at the end, unless it is the sentinel |
| Connection.Project | tplink_archer/connection.py:154-163 | the listing loop returns one record per non-sentinel section, in section order |
| Connection.StatsOf | tplink_archer/connection.py:120-127 | the four rates are read under `upstreamCurrRate`, `downstreamCurrRate`, `upstreamMaxRate` and `downstreamMaxRate` |
| Connection.DhcpClientOf | tplink_archer/connection.py:156-162 | a client's IP, MAC and host name are read under `IPAddress`, `MACAddress` and `hostName` |
| Connection.WifiClientOf | tplink_archer/connection.py:183 | a Wi-Fi client is the value stored under `associatedDeviceMACAddress`, and `None` when that key is missing |
| Connection.LeaseRecordOf | tplink_archer/connection.py:203-208 | a lease is read from `yiaddr` and `chaddr`, and is enabled exactly when `enable` is '1' |
| Connection.LeaseRoundTrip | tplink_archer/connection.py:203-208 | reading back the section a lease writes gives the same identifier, IP, MAC and flag |
| Connection.PortRuleOf | tplink_archer/connection.py:283-292 | a rule is built by the defaulting constructor from the seven fields, and is enabled exactly when `portMappingEnabled` is '1' |
| Connection.RuleSectionGet | tplink_archer/models.py:290-298 | each of the seven fields of a rule's section holds the rule's field of that name, with the flag as '1' or '0' |
| Connection.RuleRoundTrip | tplink_archer/connection.py:283-292 | reading back the section of a constructed rule gives the same rule: the defaulting is idempotent |
| Connection.MissingFieldsAreNone | tplink_archer/connection.py:120-292 | a field missing from the section projects to `None` in the record that reads it (stats at 120-127, clients at 156-162, Wi-Fi at 183, leases at 203-208, rules at 283-292), or to disabled for `enable` and `portMappingEnabled`; the one exception is a missing `X_TP_InternalPortEnd`, which takes the default of `Models.NewPortForwardingRule` (the external port when the external end is empty, otherwise the internal port) |
| Connection.FirstWithIp | tplink_archer/connection.py:230 | the index of the first lease with the IP address, or none when no lease has it |
| Connection.LeaseAnswer | tplink_archer/connection.py:229-231 | the answer of `create_dhcp_lease` to a re-fetch: a found lease has the requested IP address |
| Connection.LeaseAnswerFirst | tplink_archer/connection.py:229-231 | for fetched leases, `IndexError` exactly when no lease has the IP address, and otherwise the first lease that has it |
| Connection.ExternalIpFound | tplink_archer/connection.py:138-141 | the external IP is read from the first section `[1,1,1,0,0,0]7`; `SectionNotFoundError` exactly when there is none |
| Connection.ArcherConnection.constructor | tplink_archer/connection.py:15-23 | a new session is not authenticated and has no headers |
| Connection.ArcherConnection.GetRequest | tplink_archer/connection.py:60-70 | one GET of `http://router/path` with the current headers |
| Connection.ArcherConnection.PostRequest | tplink_archer/connection.py:72-84 | one POST of the data to `http://router/path` with the current headers |
| Connection.ArcherConnection.AuthenticateBasicAuth | tplink_archer/connection.py:39-58 | always installs the Referer and Cookie headers; when already authenticated, sends nothing and succeeds; otherwise probes once or twice and stops at the first 200, is authenticated exactly when a probe answered 200, and raises `AuthError` when not |
| Connection.ArcherConnection.ApiRequest | tplink_archer/connection.py:86-108 | `AuthError` with nothing sent, then `ValueError` with nothing sent for a type other than 'get' or 'post', then one request whose non-200 status is `RequestError`; otherwise the response unchanged |
| Connection.ArcherConnection.Query | tplink_archer/connection.py:116-119 | one guarded POST of the query, then the parsed sections of the answer |
| Connection.ArcherConnection.GetStats | tplink_archer/connection.py:110-127 | the rates of the first section only |
| Connection.ArcherConnection.GetExternalIp | tplink_archer/connection.py:129-141 | `externalIPAddress` of the first section `[1,1,1,0,0,0]7`, or `SectionNotFoundError` |
| Connection.ArcherConnection.GetDhcpClients | tplink_archer/connection.py:143-163 | one client per non-sentinel section, in order |
| Connection.ArcherConnection.GetWifiClients | tplink_archer/connection.py:165-184 | the band's query, then one MAC address per non-sentinel section, in order |
| Connection.ArcherConnection.GetDhcpLeases | tplink_archer/connection.py:186-211 | one new lease object per non-sentinel section, in order, no two of them the same object |
| Connection.ArcherConnection.GetPortForwardingRules | tplink_archer/connection.py:266-295 | one defaulted rule per non-sentinel section, in order |
| Connection.ArcherConnection.CreateDhcpLease | tplink_archer/connection.py:213-231 | fails as the guard of `api_request` does with only the create command sent; otherwise posts the create command with the flag as '1' or '0', re-fetches the leases, and returns a new lease object holding the first with the requested IP, or the re-fetch's error or `IndexError` |
| Connection.ArcherConnection.LeaseWithIp | tplink_archer/connection.py:229-231 | one re-fetch of the leases, then a new lease object holding the first with the requested IP, or the re-fetch's error or `IndexError` |
| Connection.ArcherConnection.DeleteDhcpLease | tplink_archer/connection.py:233-239 | posts the delete command for the lease's raw identifier; fails exactly as the guard of `api_request` does |
| Connection.ArcherConnection.ToggleDhcpLease | tplink_archer/connection.py:241-250 | posts the toggle command for the raw identifier and flag; the lease's flag becomes `enable` only after a 200, and its other fields cannot change |
| Connection.ArcherConnection.EnableDhcpLease | tplink_archer/connection.py:252-257 | toggle with `true`: `AuthError` with nothing sent when not authenticated; otherwise the toggle command with flag '1', and the lease is enabled only after a 200 |
| Connection.ArcherConnection.DisableDhcpLease | tplink_archer/connection.py:259-264 | toggle with `false`: `AuthError` with nothing sent when not authenticated; otherwise the toggle command with flag '0', and the lease is disabled only after a 200 |
| Connection.MakeLeases | tplink_archer/connection.py:198-211 | a new lease object per non-sentinel section, holding the projected fields, no two of them the same object |
| Connection.FirstLeaseWithIp | tplink_archer/connection.py:230 | the first lease whose IP is the requested one, or `IndexError` for the empty selection |
| ConnectionScenario.AuthFirstProbe | tplink_archer/connection.py:50-58 | statuses [200]: authenticated after one probe |
| ConnectionScenario.AuthSecondProbe | tplink_archer/connection.py:50-58 | statuses [403, 200]: authenticated after two probes |
| ConnectionScenario.AuthRefused | tplink_archer/connection.py:45-58 | statuses [403, 403]: two probes, `AuthError`, not authenticated, and the headers still set |
| ConnectionScenario.AuthAgain | tplink_archer/connection.py:50-58 | a second authentication of an authenticated session sends nothing and succeeds with other credentials |
| ConnectionScenario.GuardOrder | tplink_archer/connection.py:95-106 | `AuthError`, then `ValueError`, with nothing sent, then `RequestError` |
| ConnectionScenario.ToggleScenario | tplink_archer/connection.py:241-264 | enable after a 200 sets the flag; disable after a refused request leaves it set |

## Left out

- `authenticate(username, password)` (tplink_archer/connection.py:28-37) is not modelled. It base64-encodes `username:password` as UTF-8, following section 4 of RFC 4648, and then calls `authenticate_basicauth`, which is modelled and takes the encoded credentials as an opaque string.
- `download_config_backup` is not modelled. It writes a file through `os.path`, which is file-system I/O.
- HTTP is not modelled. `requests.get` and `requests.post` are the `Transport` oracle, which answers a status and a text; the response's raw bytes (`r.content`) are not modelled.
- `tplink_archer/__main__.py` is not part of this model: it is the command-line interface and its JSON configuration file.
- The test server under `tests/test_server`, `tests/conftest.py`, `tests/test_requests.py` and `setup.py` are not part of this model.
- The `__repr__` methods are not modelled; they only format text for display.
- `Stack.parse(None)` is not modelled. It returns the `ValueError` class instead of raising, and strings are never `None`.
- `Models.Stack.New`: the transient state in which `sections` is still `None` is not representable. A stack under construction holds `[]` until `parse` succeeds.
- `Models.ParseSectionList`: `__parse_sections` replaces the strings of its argument list by sections in place. The model builds a new sequence, so the caller's list of strings is not shown being overwritten.
- `Models.Stack.ToDict`: the Python dicts it returns share the sections' value dicts. The model returns copies, so aliasing is not captured.
- `Models.Stack.ToDict`: `to_dict` wraps the list of records as `{'sections': ...}` (tplink_archer/models.py:148-150). The model returns the list itself, without the one-key wrapper.
- `Models.Stack.GetSection`: it cannot be called when `sections` is `None`, because the model has no such state; the falsy check is modelled for the empty list only.
- `Connection.ArcherConnection.GetExternalIp`: when the lookup gives `None`, the source fails on `None.values`. The model answers `Ok(None)` there instead, but a parsed stack always has a section, so this case does not arise.
- `Connection.ArcherConnection.GetStats`: the source's `IndexError` on an empty stack is not modelled, because a parsed stack always has at least one section.
- `Models.DhcpLease.ToSection`: only the three fields are stated; the order of the entries (`chaddr`, `yiaddr`, `enable`) is given by the definition but not restated as an ensures.
- `Models.RuleToSection`: the key/value contents are stated in the separate lemmas `Models.RuleSectionKeys` and `Connection.RuleSectionGet`, not in its own ensures.
- `BaseSettingsElement.to_text` (tplink_archer/models.py:208-213) has no member of its own: `Models.BaseToSection` states the text of a base element's section.
- `WifiFreq` is modelled only as its two-case selection in `Constants.WifiClientsQuery`.
