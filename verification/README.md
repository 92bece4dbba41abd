# Amazon Connect ↔ SAP Sales and Service Cloud connector, modelled in Dafny

This project models the data-transforming core of the connector between Amazon Connect and SAP Sales and Service Cloud. It covers four pieces of code.

- **The agent-desktop contact events** (`connector-app/scripts/contactEvents.js`, modules `ContactEvents`, `JsObject` and `Payload`).
  - Each lifecycle event of a contact seeds a message, or posts nothing.
  - `createPayload` flattens the contact's attributes by name.
  - It then adds the channel properties: a CALL with its ANI and recording id for voice, a CHAT with e-mail and transcript for chat.
  - Next it adds the CAD properties `Custom_1..3`, then the external reference id.
  - Finally it writes the message as the unescaped `<payload>` text that the SAP host page receives.
  - The message is an insertion-ordered object over the fixed set of property names the handlers assign. A parser for the payload text shows what the host can read back.
- **The post-call Lambda** (`lambda/connector_lambda.py`, modules `ConnectorLambda`, `PyJson`, `Urls` and `Text`).
  - It takes the reference id and the S3 key prefix from a Contact Lens event.
  - It finds the analysis object, reads the post-contact summary through defaulted `get`s and waits while the summary is empty.
  - It builds the OData lookup filter and the PATCH request, and extracts the call id and version.
  - It normalises the configured URLs and maps every outcome to a status code.
  - Every external reply is a parameter of the model: the configuration store, the bucket listing, each object fetch and the two HTTP exchanges.
  - The handler is modelled twice:
    - `HandleAsWritten` follows the code.
    - `Handle` corrects the four defects listed under Findings.
- **The host page's message listener** (`connector-app/scripts/index.js`, module `HostMessages`).
  - It ignores a message with neither a direction nor a recording id.
  - It builds the contact-trace URL for a recording id.
  - It removes whitespace and dashes from the number it dials for an outbound request.
- **The provisioning request data** (`cdk/lib/connect-sdk-utils.ts`, module `ConnectSdkRequests`).
  - The Contact Lens rule function of `createRule`, with its meaning on a contact.
  - The create and delete inputs of `updateQueueOutboundCallerConfig`, with their physical-resource ids.
  - The exact-name search requests.

JavaScript truthiness, `undefined`, Python truthiness, KeyError, IndexError, TypeError, `str.split`, clamping slices and `urlparse`'s path are spelled out explicitly where the code depends on them.

## Model

| member | source | states |
|---|---|---|
| JsObject.Set | connector-app/scripts/contactEvents.js:86-143 | Assigning a property gives it the new value and leaves every other property's value alone. An existing name keeps its position; a new name is listed last. The object stays duplicate-free. |
| JsObject.Flatten | connector-app/scripts/contactEvents.js:77-82 | The flattened map has an entry for every attribute's name and no other entry. |
| JsObject.FlattenLastWins | connector-app/scripts/contactEvents.js:77-82 | When several attributes share a name, the value stored is that of the last one. |
| Payload.Serialize | connector-app/scripts/contactEvents.js:147-155 | The payload opens with the fixed XML header and `<payload> `, closes with `</payload>`, and holds the elements in between. |
| Payload.DecodableWhenPlain | connector-app/scripts/contactEvents.js:151 | Unescaped elements can be read back whenever no name holds `>` and no value holds `<`. |
| Payload.ParseElementsRoundTrip | connector-app/scripts/contactEvents.js:150-153 | Reading the elements back gives every property's name and text, in order. |
| Payload.ParseSerialize | connector-app/scripts/contactEvents.js:147-155 | Reading a whole payload back gives the rendered properties in insertion order. |
| Payload.MarkupInValueIsMisread | connector-app/scripts/contactEvents.js:151 | Without escaping, one value holding `</k><j>y</j><k>` is read back as three separate fields. |
| ContactEvents.NameRoundTrip | connector-app/scripts/contactEvents.js:150-151 | Every property is recovered from the tag name it is written under, so no two properties share a tag. |
| ContactEvents.Seed | connector-app/scripts/contactEvents.js:17-70 | Exactly the accepted, connecting and ended handlers build a message; the other four post nothing. |
| ContactEvents.SeedKeys | connector-app/scripts/contactEvents.js:21-61 | Each seed lists EventType, then ActionTemp (accepted) or Action (connecting, ended), each once, and no reference id. |
| ContactEvents.SeedActions | connector-app/scripts/contactEvents.js:21-61 | The seeds are INBOUND/ACCEPT, INBOUND/NOTIFY and UPDATEACTIVITY/END. CAD is requested exactly for the accepted and connecting seeds. |
| ContactEvents.EventMessageSeedFields | connector-app/scripts/contactEvents.js:21-61 | The posted message keeps its seed's event type, action and temporary action. |
| ContactEvents.AddVoiceFields | connector-app/scripts/contactEvents.js:85-98 | Voice sets Type CALL and ANI to the attribute's value, even `undefined`. RecordingId becomes the contact id exactly when ActionTemp is ACCEPT. Nothing else changes. |
| ContactEvents.AddChatFields | connector-app/scripts/contactEvents.js:99-111 | Chat sets Type CHAT and the fixed e-mail. Transcript becomes `" "` exactly when Action is END. Nothing else changes. |
| ContactEvents.ChannelValues | connector-app/scripts/contactEvents.js:85-111 | After the channel step, each of Type, ANI, RecordingId, Email and Transcript has its voice value, its chat value, or is unchanged on any other channel. |
| ContactEvents.AddChannelFields | connector-app/scripts/contactEvents.js:85-111 | The channel step touches only Type, ANI, RecordingId, Email and Transcript, and keeps the message duplicate-free. |
| ContactEvents.AddIfTruthy | connector-app/scripts/contactEvents.js:131-139 | A CAD property is copied exactly when its attribute is truthy; nothing else changes. |
| ContactEvents.AddCadFields | connector-app/scripts/contactEvents.js:113-140 | Custom_1..3 take CustomerUUID, TicketID and Serial when the action is NOTIFY or the temporary action is ACCEPT, and the attribute is truthy. Other properties are untouched. |
| ContactEvents.BuildMessage | connector-app/scripts/contactEvents.js:72-143 | The message always carries the contact id as ExternalReferenceID. Every property outside the enrichment keys keeps its seed value, and the message stays duplicate-free. |
| ContactEvents.BuildMessageChannel | connector-app/scripts/contactEvents.js:85-111 | The finished message's channel properties, stated against the attributes and the seed. Another channel adds none of them. |
| ContactEvents.BuildMessageCad | connector-app/scripts/contactEvents.js:113-140 | The finished message's CAD properties, stated against the seed's actions and the attributes. |
| ContactEvents.BuildMessageKeyOrder | connector-app/scripts/contactEvents.js:85-143 | The seed's properties keep their order at the front of the message; added properties follow. |
| ContactEvents.AcceptedRecordingId | connector-app/scripts/contactEvents.js:92-96 | An accepted voice contact carries its contact id as RecordingId; on other channels there is none. |
| ContactEvents.OnlyAcceptedRecords | connector-app/scripts/contactEvents.js:92-96 | Connecting and ended messages never carry a RecordingId. |
| ContactEvents.TranscriptOnlyOnEndedChat | connector-app/scripts/contactEvents.js:104-108 | Transcript `" "` appears exactly on an ended chat. |
| ContactEvents.CadIffTruthy | connector-app/scripts/contactEvents.js:114-140 | Accepted and connecting messages carry each Custom_n if and only if its attribute is truthy, and then with the attribute's value. |
| ContactEvents.EndedSendsNoCad | connector-app/scripts/contactEvents.js:114-140 | The ended message never carries Custom_1..3. |
| ContactEvents.EventMessageOrder | connector-app/scripts/contactEvents.js:72-143 | Every message is duplicate-free, opens with its seed's two properties in order, and ends with ExternalReferenceID. |
| ContactEvents.OnEvent | connector-app/scripts/contactEvents.js:9-70 | A payload is produced exactly for the posting events, framed by the fixed header and footer. |
| ContactEvents.MessageKeepsReadable | connector-app/scripts/contactEvents.js:85-143 | The enrichment adds no `<` when the seed, the attributes and the contact id hold none. |
| ContactEvents.EventPayloadReadsBack | connector-app/scripts/contactEvents.js:147-155 | The posted payload reads back as the message's properties in insertion order when no attribute value or contact id holds `<`. |
| Text.Split | lambda/connector_lambda.py:119 | `str.split` gives one more part than there are separators, no part holds one, and joining the parts gives the string back. |
| Text.SplitJoin | lambda/connector_lambda.py:119 | Splitting a join of separator-free parts gives the parts back. |
| Text.LastSegment | lambda/connector_lambda.py:119 | `split(sep)[-1]` is the separator-free suffix that follows the last separator, or the whole string when there is none. |
| Text.PySlice | lambda/connector_lambda.py:122 | Python's slice clamps both bounds to the length, and a stop at or before the start gives `""`. |
| PyJson.Subscripted | lambda/connector_lambda.py:188-189 | A missing dict key raises KeyError. A list or string index in `-len..len-1` reads from the front or, when negative, from the back; any other index raises IndexError. Subscripting a list or string by a key, or `None` or a scalar at all, raises TypeError. |
| PyJson.SubscriptPathErrors | lambda/connector_lambda.py:188-193 | A chain of subscripts raises only KeyError, IndexError or TypeError. |
| PyJson.DictGet | lambda/connector_lambda.py:147 | `get` returns the value or the default on a dict, and raises AttributeError on anything else. |
| PyJson.GetChainOnEmpty | lambda/connector_lambda.py:152 | Once a key is missing, the rest of the chain yields the final default `""`. |
| PyJson.GetChainAgreesWithNested | lambda/connector_lambda.py:152 | The chain of `get`s yields the nested value when the whole path exists, and `""` when the first missing key sits under dicts. |
| Urls.AppendSlashGivesPath | lambda/connector_lambda.py:50 | Appending `/` to a URL with an empty path and no query or fragment gives it the path `/`. |
| Urls.NormalizeAsWritten | lambda/connector_lambda.py:50 | A value is kept or gets one `/` appended; without a query or fragment the result has a non-empty path. |
| Urls.UrlPath | lambda/connector_lambda.py:50-52 | `urlparse(u).path` never holds a query or a fragment, and a text with no scheme, no `//` network location, no query and no fragment is its own path. |
| Urls.NormalizeAsWrittenIdempotent | lambda/connector_lambda.py:50-52 | Without query or fragment, normalising twice is normalising once. |
| Urls.NormalizeAsWrittenNotIdempotentWithQuery | lambda/connector_lambda.py:50 | On `https://h?q` the appended `/` lands in the query, so every normalisation appends another. |
| Urls.PathfulKept | lambda/connector_lambda.py:50-53 | A value with a non-empty path is kept as it is, and `phoneCalls` is glued straight on. |
| Urls.NormalizeAsWrittenKeepsMissingSlash | lambda/connector_lambda.py:48-53 | The service path without its trailing slash is kept, so the call path does not end in `/phoneCalls`. |
| Urls.PhoneCallPathAsWritten | lambda/connector_lambda.py:53 | The call path starts with the configured service path and ends with `phoneCalls`. |
| Urls.EnsureTrailingSlash | lambda/connector_lambda.py:48 | The result ends with `/`, and `/` is appended exactly when it was missing. |
| Urls.EnsureTrailingSlashIdempotent | lambda/connector_lambda.py:48-52 | Ensuring the slash twice is ensuring it once, on every input. |
| Urls.PhoneCallPath | lambda/connector_lambda.py:48-53 | The corrected call path starts with the service path and ends with `/phoneCalls`, adding exactly the missing slash. |
| ConnectorLambda.ReferenceId | lambda/connector_lambda.py:119 | The reference id is the slash-free end of the ARN after its last `/`, or the whole ARN without one. |
| ConnectorLambda.ReferenceIdOfArn | lambda/connector_lambda.py:119 | For an ARN made of slash-free segments, the reference id is the last segment. |
| ConnectorLambda.S3Prefix | lambda/connector_lambda.py:122 | The prefix opens with `Analysis/Voice/` and ends with the reference id and `_analysis_`, whatever the time's length. |
| ConnectorLambda.S3PrefixOfIsoTime | lambda/connector_lambda.py:122 | For an ISO time the prefix is `Analysis/Voice/YYYY/MM/DD/<id>_analysis_`, and its slash-separated pieces are exactly these. |
| ConnectorLambda.FirstMatch | lambda/connector_lambda.py:132 | The object chosen is the first listed whose key has the prefix; none is chosen only when no key has it. |
| ConnectorLambda.AwaitSummaryAsWritten | lambda/connector_lambda.py:146-152 | The loop sleeps four times on a falsy summary and never otherwise, and returns the summary of the data it was given. |
| ConnectorLambda.AwaitSummaryRefetching | lambda/connector_lambda.py:146-152 | The corrected loop reads again on each retry and stops at the first non-empty reading or after four waits. Every skipped reading was empty. |
| ConnectorLambda.WaitsRefetching | lambda/connector_lambda.py:146-152 | The corrected wait count is at most four and names a reading that exists. Every reading before it has an empty summary. The reading it stops at has a non-empty summary unless all four waits are used or no later reading exists. |
| ConnectorLambda.ExtractSummary | lambda/connector_lambda.py:112-164 | A missing time or ARN raises KeyError. A found summary comes with the ARN's reference id. Of the S3 failures, only ClientError is modelled; apart from it, only KeyError, AttributeError and ValueError escape. |
| ConnectorLambda.SummaryErrors | lambda/connector_lambda.py:147-152 | Reading the summary raises nothing but AttributeError, when a non-dict sits on the path. |
| ConnectorLambda.ExtractsPresentSummary | lambda/connector_lambda.py:143-157 | A truthy summary in the first matching object is returned unchanged, with no wait. |
| ConnectorLambda.DisplayFilter | lambda/connector_lambda.py:169 | The filter is `externalId.displayId eq '` followed by the id and a closing quote. |
| ConnectorLambda.FilterRoundTrip | lambda/connector_lambda.py:169 | The reference id is recovered from its filter. |
| ConnectorLambda.DisplayFilterInjective | lambda/connector_lambda.py:169 | Different reference ids give different filters. |
| ConnectorLambda.CallDetails | lambda/connector_lambda.py:182-193 | The first call's id and `adminData.updatedOn` are returned. A missing key gives `(None, None)`. An IndexError or TypeError met on either path escapes unchanged, and nothing else escapes. |
| ConnectorLambda.DetailsOfFirstCall | lambda/connector_lambda.py:188-190 | A reply listing calls gives the first call's id and version, whatever follows. |
| ConnectorLambda.NoCallsRaises | lambda/connector_lambda.py:188 | A reply listing no calls raises IndexError, which `extract_call_details` does not catch. |
| ConnectorLambda.NoRecordRaises | lambda/connector_lambda.py:188 | A missing reply (`None`) raises TypeError. |
| ConnectorLambda.MissingKeyPatchesNone | lambda/connector_lambda.py:188-202 | A lookup reply missing a key gives `(None, None)`: one without `value`, or a first call with an `id` but no `adminData`. The found id is dropped, and the run replies 200 after patching `<collection>/None` with `if-Match: None`. |
| ConnectorLambda.Classify | lambda/connector_lambda.py:87-104 | ValueError maps to 400 with its message, RequestException to 500 with the service message, and everything else to 500 "Unexpected error occurred". |
| ConnectorLambda.CheckRule | lambda/connector_lambda.py:58-62 | The event passes exactly when its rule name is `SAPPostCallAnalytics`. A missing detail or rule name raises KeyError; any other rule name raises ValueError with the text `Unsupported ruleName: ` followed by that name. |
| ConnectorLambda.UnsupportedRuleIs400 | lambda/connector_lambda.py:58-92 | An unsupported rule name is answered with 400 and the body `{"error": "Unsupported ruleName: <name>"}`, with no request sent, both as written and corrected. |
| ConnectorLambda.LookUpAndPatch | lambda/connector_lambda.py:166-208 | The lookup request always goes first with the reference id's filter. The PATCH, if sent, carries the summary as transcript. A 200 means both were sent. |
| ConnectorLambda.LookUpAndPatchSucceeds | lambda/connector_lambda.py:195-202 | The corrected run succeeds exactly when the lookup reply yields details and the patch replies. Details are the first call's id and version, or `(None, None)` after a KeyError. The patch goes to that id with that version as `if-Match`. |
| ConnectorLambda.HandleAsWritten | lambda/connector_lambda.py:14-104 | Missing configuration gives 500 and no request. Every reply is 200, 400 or 500, and every 500 is "Unexpected error occurred". |
| ConnectorLambda.Handle | lambda/connector_lambda.py:14-104 | Missing configuration gives 500. Any lookup that is sent targets a collection path ending in `/phoneCalls`. |
| ConnectorLambda.HandleSucceeds | lambda/connector_lambda.py:14-104 | The corrected handler sends both requests and replies 200 exactly when four things hold: the rule matches, a summary is extracted, the lookup reply yields details (possibly `(None, None)`), and the patch replies. |
| ConnectorLambda.MissingAnalysisAsWritten | lambda/connector_lambda.py:132-137 | As written, a missing analysis never replies 404. It looks up the call with id "body" and patches it with "statusCode". |
| ConnectorLambda.MissingAnalysisReported | lambda/connector_lambda.py:132-137 | Corrected, a missing analysis replies 404 with "No matching object found in S3" and sends nothing. |
| ConnectorLambda.DeniedAnalysisReported | lambda/connector_lambda.py:132-164 | Corrected, a denied listing, or a denied fetch of the first matching object, replies with the service's own status and message and sends nothing. |
| ConnectorLambda.FailedExchangesAsWritten | lambda/connector_lambda.py:172-180 | As written, a failed lookup ends as 500 "Unexpected error occurred", and a failed patch is reported as 200 with a null body. |
| ConnectorLambda.FailedExchangesReported | lambda/connector_lambda.py:93-98 | Corrected, either failed exchange replies 500 "Error communicating with external service". |
| ConnectorLambda.WaitNeverRecoversAsWritten | lambda/connector_lambda.py:146-152 | As written, an empty first summary costs all four sleeps and the empty summary is extracted, whatever the later readings of the object hold. The handler then patches the call with `""` as its transcript. |
| ConnectorLambda.WaitRecoversOnReread | lambda/connector_lambda.py:145-152 | Corrected, a summary that appears on the first re-read is returned after one wait. |
| HostMessages.TraceUrl | connector-app/scripts/index.js:22 | The URL is the access URL, `/contact-trace-records/details/`, the recording id and `?tz=America/New_York`. |
| HostMessages.TraceUrlRoundTrip | connector-app/scripts/index.js:22 | The recording id is recovered from the opened URL. |
| HostMessages.TraceUrlInjective | connector-app/scripts/index.js:22 | Different recordings open different pages. |
| HostMessages.CleanedAppend | connector-app/scripts/index.js:32 | Cleaning works piece by piece: cleaning a concatenation concatenates the cleaned pieces. |
| HostMessages.CleanedHasNoRemovable | connector-app/scripts/index.js:32 | No whitespace character (as JavaScript's `\s` defines it) and no `-` is left. |
| HostMessages.CleanedPlain | connector-app/scripts/index.js:32 | A number without whitespace or dashes is kept as it is. |
| HostMessages.CleanedIdempotent | connector-app/scripts/index.js:32 | Cleaning twice is cleaning once. |
| HostMessages.CleanedCounts | connector-app/scripts/index.js:32 | Every other character is kept exactly as often as it occurs; the removed ones are all gone. |
| HostMessages.CleanedDropsSeparator | connector-app/scripts/index.js:32 | A space or dash between two pieces disappears and the pieces are joined. |
| HostMessages.OnMessage | connector-app/scripts/index.js:15-47 | A message is ignored if and only if neither direction nor recording id is truthy. A page opens if and only if the recording id is truthy. A call is placed if and only if the direction is `OUT`. A missing number throws. |
| HostMessages.PopupNamesRecording | connector-app/scripts/index.js:21-25 | The opened page is the trace page of the message's own recording id. |
| HostMessages.DialledNumberIsClean | connector-app/scripts/index.js:27-32 | The dialled number holds no whitespace or dash and keeps every other character of the message's number. |
| HostMessages.BothFire | connector-app/scripts/index.js:21-32 | One message with a recording id and direction `OUT` both opens the trace page and dials. |
| HostMessages.OnlyOutDials | connector-app/scripts/index.js:27 | Any other truthy direction dials nothing. |
| ConnectSdkRequests.CreateRuleFunction | cdk/lib/connect-sdk-utils.ts:470-490 | Version 2022-11-25, an OR of exactly two non-negated CONTAINS_ANY conditions. The queue ids go unchanged against the queue path and the agent ids against the agent path. |
| ConnectSdkRequests.RuleFiresIff | cdk/lib/connect-sdk-utils.ts:476-487 | The rule fires for a contact exactly when its queue is listed or its agent is listed. |
| ConnectSdkRequests.EmptyRuleNeverFires | cdk/lib/connect-sdk-utils.ts:476-487 | With both lists empty the rule fires for no contact. |
| ConnectSdkRequests.CreateCallerConfigId | cdk/lib/connect-sdk-utils.ts:323 | The create-time id is the action name, the queue id, `-` and the flow id. |
| ConnectSdkRequests.DeleteCallerConfigId | cdk/lib/connect-sdk-utils.ts:337 | The delete-time id is the scope followed by the action name, and nothing else. |
| ConnectSdkRequests.CreateCallerConfig | cdk/lib/connect-sdk-utils.ts:312-324 | The create input asks Connect to set the queue's outbound flow and caller-id number in the given instance, under the physical id built from queue and flow. |
| ConnectSdkRequests.DeleteCallerConfig | cdk/lib/connect-sdk-utils.ts:326-338 | The delete input asks Connect to clear both settings of the same queue, under the physical id built from the scope. |
| ConnectSdkRequests.DeleteMatchesCreate | cdk/lib/connect-sdk-utils.ts:312-338 | Create and delete share service, action, instance and queue; create sets both settings and delete clears both. |
| ConnectSdkRequests.CreateIdRoundTrip | cdk/lib/connect-sdk-utils.ts:323 | Given the queue id, the flow id is recovered from the create-time id. |
| ConnectSdkRequests.CreateIdInjective | cdk/lib/connect-sdk-utils.ts:323 | For queue ids of one length, equal create-time ids mean equal queue and flow ids. |
| ConnectSdkRequests.CreateIdCollision | cdk/lib/connect-sdk-utils.ts:323 | Without that length condition ids collide: queue `a-` with flow `b` and queue `a` with flow `-b` share one. |
| ConnectSdkRequests.DeleteIdIgnoresQueue | cdk/lib/connect-sdk-utils.ts:337 | The delete-time id names neither queue nor flow, so two queues in one scope share it. |
| ConnectSdkRequests.SearchActionRoundTrip | cdk/lib/connect-sdk-utils.ts:248-264 | Each search action names its own target resource. |
| ConnectSdkRequests.Search | cdk/lib/connect-sdk-utils.ts:248-264 | A search goes to Connect for its target, asks for at most one result in the given instance, and compares the target's field EXACT with the name. |
| ConnectSdkRequests.SearchQueueByName | cdk/lib/connect-sdk-utils.ts:248-264 | `SearchQueuesCommand` on `Name` EXACT, with the id taken from `Queues.0.QueueId` of the response. |
| ConnectSdkRequests.SearchContactFlowByName | cdk/lib/connect-sdk-utils.ts:280-296 | `SearchContactFlowsCommand` on `name` EXACT, with the id taken from `ContactFlows.0.Id` of the response. |
| ConnectSdkRequests.RoutingProfileForName | cdk/lib/connect-sdk-utils.ts:354-371 | `SearchRoutingProfilesCommand` on `name` EXACT, with the fixed id `<scope>GetRoutingProfile`. |
| ConnectSdkRequests.SecurityProfileForName | cdk/lib/connect-sdk-utils.ts:386-403 | `SearchSecurityProfilesCommand` on `name` EXACT, with the fixed id `<scope>GetSecurityProfile`. |
| ConnectSdkRequests.SearchUserForUsername | cdk/lib/connect-sdk-utils.ts:439-455 | `SearchUsersCommand` on `username` EXACT, with the fixed id `<scope>SearchUsers`. |
| ConnectSdkRequests.AgentSecurityProfileSearch | cdk/lib/connect-sdk-utils.ts:540-555 | `SearchSecurityProfilesCommand` for the profile named exactly `Agent`, with the fixed id `<scope>SearchSecurityProfile`. |
| ConnectSdkRequests.SearchesAreExact | cdk/lib/connect-sdk-utils.ts:248-555 | All five name searches ask for one result whose field equals the requested name exactly; the agent search asks for the profile named exactly `Agent`. |
| ConnectSdkRequests.SearchFieldsByTarget | cdk/lib/connect-sdk-utils.ts:257-448 | Queues are searched by `Name`, users by `username`, and flows and routing or security profiles by `name`. |
| ConnectSdkRequests.FixedIdsIgnoreName | cdk/lib/connect-sdk-utils.ts:354-455 | The routing-profile, security-profile and user searches fix their id by scope alone, whatever the name. The queue and flow searches take theirs from the response. |

## Left out

- Posting the payload (`window.parent.postMessage`), opening the trace window (`window.open`) and placing the call (`connect.Endpoint`, `connect.Agent`) are left out. The model returns the text or number instead.
- The debug logging in every handler and `print` in the Lambda are left out; they change no state.
- The attributes are the name/value pairs `getAttributes` returns. The model does not cover non-string values, attribute names that are special to JavaScript objects (`__proto__`), or `Object.values` order over a non-array container.
- A message in the listener is an object with string or absent fields. A `null` or `undefined` `event.data` throws on line 17, and a string, number or boolean `event.data` reads `Direction` and `RecordingId` as `undefined` and is ignored; neither case, nor non-string fields, is modelled.
- JavaScript strings are UTF-16 code units; the model works on characters.
- The model reads the environment variables the Lambda needs before its `try` (lines 27-40) as present. A missing one raises outside the handler's reply mapping.
- The SSM and Secrets Manager reads (lines 45-56), the basic-auth object and the `requests` timeouts are left out. The configuration appears as an optional pair of base URL and service path, and its absence stands for any SSM or Secrets Manager failure there (500). A malformed bracketed host makes `urlparse` on lines 50 and 52 raise ValueError, which line 87 answers with 400; that case is not modelled.
- `urljoin` is kept as an unevaluated base/reference pair.
- Decoded JSON numbers are integers: floats, including the `NaN` and `Infinity` that `json.loads` accepts, are not modelled.
- The event's `time`, `detail.ruleName` and `detail.contactArn` are strings or absent, and `detail` is a dict or absent. Other JSON types are not modelled. Examples: a non-dict `detail` raises TypeError on line 118, and a non-string `contactArn` raises AttributeError on line 119; the handler answers both with 500. A non-string `ruleName` is refused with 400.
- Urls.UrlPath follows `urlsplit` for scheme, network location, query and fragment. `;`-parameters, whitespace stripping and IPv6 validation are not modelled.
- Only `ClientError` from the bucket listing or the object fetch is modelled, because it is the only one line 159 catches. Any other failure there escapes `extract_summary_refID`, and the handler answers it with 500 "Unexpected error occurred". Examples are a connection error, or a timeout while reading the object body.
- The order S3 lists objects in is a parameter, as is every object's content. The decoding failure of `json.loads` is one ValueError with its message.
- `time.sleep` is left out; the model counts the waits.
- The JSON serialisation of the reply body is left out: the body is the JSON value `json.dumps` would receive. `str(e)` of a ValueError is its message.
- The CAD, e-mail and ID values of a real Connect contact come from Connect; the model takes them as given.
- ConnectSdkRequests.Fires: the meaning of the rule language (`CONTAINS_ANY` over a contact's values, `OR`, `Negate`) follows Amazon Connect's rule documentation. The repository does not define it, and the model covers only the operators used here.
- `${this.scope}` is the construct's text form; the model takes it as a string parameter.
- The CDK constructs are left out: `AwsCustomResource`, `CfnRule`, the IAM policies, the other helper methods of the file, `generatePassword` and `getRandomString` (which use `Math.random`). So are resource ordering, create/update/delete dispatch and `fromResponse` resolution, which the CDK library and CloudFormation perform. The repository only declares them.
- `JSON.stringify` of the rule function is left out; the model keeps it as structured data.

## Findings

| source | as written | input that shows it | evidently intended | confidence | as-written member | corrected member |
|---|---|---|---|---|---|---|
| lambda/connector_lambda.py:133-137 | `extract_summary_refID` returns a two-key status dict when no analysis object matches. Line 67 unpacks it into summary `"statusCode"` and reference id `"body"`. | An event with the supported rule and a bucket listing with no matching key. | Reply 404 "No matching object found in S3" and call nothing. | medium; not executed | ConnectorLambda.MissingAnalysisAsWritten | ConnectorLambda.MissingAnalysisReported |
| lambda/connector_lambda.py:48-53 | The comment asks for a trailing slash, but `/` is appended only when `urlparse` finds an empty path. | Service path `/sap/c4c/api/v1/phone-service` gives `/sap/c4c/api/v1/phone-servicephoneCalls`. | Append `/` whenever it is missing. | high; not executed | Urls.NormalizeAsWrittenKeepsMissingSlash | Urls.PhoneCallPath |
| lambda/connector_lambda.py:172-180 | `get_call_record` and `update_call_record` catch RequestException and return None. A failed lookup becomes the TypeError of line 188 (500 "Unexpected error occurred"). A failed patch is reported as 200 with body `null`. The handler's RequestException branch (lines 93-98) is never reached. | A lookup or patch that times out. | Reply 500 "Error communicating with external service". | medium; not executed | ConnectorLambda.FailedExchangesAsWritten | ConnectorLambda.FailedExchangesReported |
| lambda/connector_lambda.py:146-152 | The retry loop re-tests the same decoded `json_data`, so an empty summary stays empty. | An analysis whose `Content` is `""` on the first read and filled on the next. Four sleeps follow, then `""` is patched as the transcript. | Read the object again on each retry. | medium; not executed | ConnectorLambda.WaitNeverRecoversAsWritten | ConnectorLambda.WaitRecoversOnReread |
