/** The post-call Lambda (lambda/connector_lambda.py): from a Contact Lens
    rule event it finds the analysis object in S3, reads the post-contact
    summary, looks the call up in the CRM's phone-service API and patches the
    summary onto it as the transcript, then maps the outcome to an HTTP-style
    status. Every external reply (the configuration store, the S3 bucket, the
    two HTTP exchanges) is a parameter; sleeping and logging are left out.

    The handler is modelled twice: `HandleAsWritten` follows the code line by
    line, and `Handle` is the corrected handler the rest of the model states
    its properties about. */
module ConnectorLambda {

  import opened Wrappers
  import opened Text
  import opened PyJson
  import Urls

  /** The only rule the handler serves (line 61). */
  const SupportedRule := "SAPPostCallAnalytics"

  /** How many times the summary wait loop sleeps at most (line 147). */
  const MaxRetries := 4

  const NoMatchMessage := "No matching object found in S3"
  const UnexpectedMessage := "Unexpected error occurred"
  const ServiceMessage := "Error communicating with external service"

  /** The keys leading to the post-contact summary, and the final key. */
  const SummaryKeys := ["ConversationCharacteristics", "ContactSummary", "PostContactSummary"]
  const SummaryLast := "Content"

  // ---------------------------------------------------------------------
  // Inputs

  /** The two configuration values the handler normalises (lines 49-53). */
  datatype Config = Config(baseUrl: string, phoneServicePath: string)

  /** The fields of the EventBridge event the handler reads; an absent one
      raises KeyError when it is subscripted. */
  datatype Detail = Detail(ruleName: Option<string>, contactArn: Option<string>)
  datatype Event = Event(time: Option<string>, detail: Option<Detail>)

  /** An object body: decoded JSON, or a body whose UTF-8 or JSON decoding
      fails (both raise a ValueError subclass). */
  datatype Content = Parsed(data: Json) | Undecodable(message: string)

  /** Fetching an object: denied (a ClientError with its status), or its
      content. `rereads` is what reading the object again would give, once
      per retry; only the corrected handler reads it. */
  datatype Fetch = FetchDenied(status: int, message: string) | Fetched(content: Content, rereads: seq<Json>)

  datatype S3Object = S3Object(key: string, fetch: Fetch)

  /** The bucket's listing: denied, or its objects in listing order. */
  datatype Bucket = ListDenied(status: int, message: string) | Objects(objects: seq<S3Object>)

  /** An HTTP exchange: the decoded JSON reply, or a failure of any kind
      (connection, non-2xx status, undecodable body). */
  datatype Exchange = Replied(body: Json) | Failed

  // ---------------------------------------------------------------------
  // Outputs

  /** `urljoin(base, reference)`, kept unevaluated; `PathWithId` is the
      f-string `collection/{id}`, whose `str(id)` text is not modelled. */
  datatype Reference = Path(path: string) | PathWithId(collection: string, id: Json)
  datatype Url = Url(base: string, reference: Reference)

  /** The two requests the handler sends (lines 166-208). */
  datatype Request =
    | GetCalls(url: Url, filter: string)
    | PatchCall(url: Url, ifMatch: Json, transcript: Json)

  /** The handler's reply: a status and the JSON value its body serialises. */
  datatype Response = Response(statusCode: int, body: Json)

  /** A run of the handler: the requests sent, in order, and the reply. */
  datatype Run = Run(sent: seq<Request>, response: Response)

  function ErrorBody(message: string): Json
  {
    JObj(map["error" := JStr(message)])
  }

  function MessageBody(message: string): Json
  {
    JObj(map["message" := JStr(message)])
  }

  // ---------------------------------------------------------------------
  // extract_summary_refID

  /** Line 119: `contact_arn.split("/")[-1]`. */
  function ReferenceId(contactArn: string): (r: string)
    ensures '/' !in r && EndsWith(contactArn, r)
    ensures |r| < |contactArn| ==> contactArn[|contactArn| - |r| - 1] == '/'
    ensures '/' !in contactArn ==> r == contactArn
  {
    LastSegment(contactArn, '/')
  }

  /** The reference id of an ARN is its resource id, the part after the last
      slash. */
  lemma ReferenceIdOfArn(parts: seq<string>)
    requires |parts| >= 1
    requires forall i :: 0 <= i < |parts| ==> '/' !in parts[i]
    ensures ReferenceId(Join(parts, '/')) == parts[|parts| - 1]
  {
    LastSegmentOfJoin(parts, '/');
  }

  /** Line 122: the key prefix of the analysis object; the event time is
      sliced as a Python string, so a short time gives short pieces. */
  function S3Prefix(time: string, referenceId: string): (r: string)
    ensures StartsWith(r, "Analysis/Voice/") && EndsWith(r, referenceId + "_analysis_")
  {
    var r := "Analysis/Voice/" + PySlice(time, 0, 4) + "/" + PySlice(time, 5, 7) + "/"
      + PySlice(time, 8, 10) + "/" + referenceId + "_analysis_";
    assert r[..15] == "Analysis/Voice/";
    assert r[|r| - |referenceId + "_analysis_"|..] == referenceId + "_analysis_";
    r
  }

  /** For an ISO-8601 time the prefix is `Analysis/Voice/YYYY/MM/DD/id_analysis_`,
      and splitting it at the slashes gives those pieces back. */
  lemma S3PrefixOfIsoTime(y: string, m: string, d: string, rest: string, id: string)
    requires |y| == 4 && |m| == 2 && |d| == 2
    requires '/' !in y && '/' !in m && '/' !in d && '/' !in id
    ensures var p := S3Prefix(y + "-" + m + "-" + d + rest, id);
      && p == "Analysis/Voice/" + y + "/" + m + "/" + d + "/" + id + "_analysis_"
      && Split(p, '/') == ["Analysis", "Voice", y, m, d, id + "_analysis_"]
  {
    var t := y + "-" + m + "-" + d + rest;
    assert t[0..4] == y && t[5..7] == m && t[8..10] == d;
    var parts := ["Analysis", "Voice", y, m, d, id + "_analysis_"];
    assert '/' !in id + "_analysis_";
    forall i | 0 <= i < |parts|
      ensures '/' !in parts[i]
    {
    }
    SplitJoin(parts, '/');
    JoinSix("Analysis", "Voice", y, m, d, id + "_analysis_");
    var head := "Analysis/Voice/" + y + "/" + m + "/" + d + "/";
    assert "Analysis/Voice/" == "Analysis" + "/" + "Voice" + "/";
    assert head + id + "_analysis_" == head + (id + "_analysis_");
    assert Join(parts, '/') == head + (id + "_analysis_");
  }

  lemma JoinSix(a: string, b: string, c: string, d: string, e: string, f: string)
    ensures Join([a, b, c, d, e, f], '/') == a + "/" + b + "/" + c + "/" + d + "/" + e + "/" + f
  {
    JoinCons(e, [f], '/');
    assert [e, f] == [e] + [f];
    JoinCons(d, [e, f], '/');
    assert [d, e, f] == [d] + [e, f];
    JoinCons(c, [d, e, f], '/');
    assert [c, d, e, f] == [c] + [d, e, f];
    JoinCons(b, [c, d, e, f], '/');
    assert [b, c, d, e, f] == [b] + [c, d, e, f];
    JoinCons(a, [b, c, d, e, f], '/');
    assert [a, b, c, d, e, f] == [a] + [b, c, d, e, f];
  }

  /** Line 132: the index of the first listed object whose key starts with
      the prefix, if any. */
  function FirstMatch(objects: seq<S3Object>, prefix: string): (r: Option<nat>)
    ensures r.Some? ==> r.value < |objects| && StartsWith(objects[r.value].key, prefix)
    ensures r.Some? ==> forall j :: 0 <= j < r.value ==> !StartsWith(objects[j].key, prefix)
    ensures r.None? ==> forall j :: 0 <= j < |objects| ==> !StartsWith(objects[j].key, prefix)
    decreases |objects|
  {
    if |objects| == 0 then None
    else if StartsWith(objects[0].key, prefix) then Some(0)
    else
      match FirstMatch(objects[1..], prefix)
      case None => None
      case Some(i) => Some(i + 1)
  }

  /** Lines 147 and 152: the summary read through `get`s with defaults. */
  function SummaryContent(data: Json): Lookup
  {
    GetChain(data, SummaryKeys, SummaryLast)
  }

  /** Whether the wait loop keeps waiting on this reading: the chain yields
      a falsy value (reading it may also raise, which ends the wait). */
  predicate Pending(summary: Lookup)
  {
    summary.Found? && !Truthy(summary.value)
  }

  /** How long the code as written waits: the loop re-evaluates the same
      decoded data, so an empty summary costs all four sleeps and stays
      empty. */
  function WaitsAsWritten(data: Json): nat
  {
    if Pending(SummaryContent(data)) then MaxRetries else 0
  }

  /** Lines 146-152, as written: the retry loop and the final reading. */
  method AwaitSummaryAsWritten(data: Json) returns (waits: nat, summary: Lookup)
    ensures waits == WaitsAsWritten(data)
    ensures summary == SummaryContent(data)
  {
    waits := 0;
    while waits < MaxRetries && Pending(SummaryContent(data))
      invariant waits <= MaxRetries
      invariant waits > 0 ==> Pending(SummaryContent(data))
      decreases MaxRetries - waits
    {
      waits := waits + 1;
    }
    summary := SummaryContent(data);
  }

  /** The corrected wait: reading the object again on every retry, at most
      four times. It stops at the first reading that is not pending. */
  function WaitsRefetching(readings: seq<Json>): (n: nat)
    requires |readings| >= 1
    ensures n < |readings| && n <= MaxRetries
    ensures forall j :: 0 <= j < n ==> Pending(SummaryContent(readings[j]))
    ensures n < MaxRetries && n + 1 < |readings| ==> !Pending(SummaryContent(readings[n]))
  {
    RefetchFrom(readings, 0)
  }

  function RefetchFrom(readings: seq<Json>, i: nat): (n: nat)
    requires i < |readings| && i <= MaxRetries
    ensures i <= n < |readings| && n <= MaxRetries
    ensures forall j :: i <= j < n ==> Pending(SummaryContent(readings[j]))
    ensures n < MaxRetries && n + 1 < |readings| ==> !Pending(SummaryContent(readings[n]))
    decreases MaxRetries - i
  {
    if i < MaxRetries && i + 1 < |readings| && Pending(SummaryContent(readings[i])) then
      RefetchFrom(readings, i + 1)
    else i
  }

  /** The corrected retry loop: it returns the reading it stopped at. */
  method AwaitSummaryRefetching(readings: seq<Json>) returns (waits: nat, summary: Lookup)
    requires |readings| >= 1
    ensures waits == WaitsRefetching(readings)
    ensures summary == SummaryContent(readings[waits])
    ensures forall j :: 0 <= j < waits ==> Pending(SummaryContent(readings[j]))
  {
    waits := 0;
    summary := SummaryContent(readings[0]);
    while waits < MaxRetries && waits + 1 < |readings| && Pending(summary)
      invariant waits < |readings| && waits <= MaxRetries
      invariant summary == SummaryContent(readings[waits])
      invariant RefetchFrom(readings, waits) == RefetchFrom(readings, 0)
      invariant forall j :: 0 <= j < waits ==> Pending(SummaryContent(readings[j]))
      decreases MaxRetries - waits
    {
      waits := waits + 1;
      summary := SummaryContent(readings[waits]);
    }
  }

  /** What `extract_summary_refID` produces: the summary and reference id,
      the status dict it returns for a ClientError or a missing object, or
      the exception it lets escape. */
  datatype Extraction =
    | Extracted(summary: Json, referenceId: string, waits: nat)
    | StatusDict(statusCode: int, message: string)
    | Threw(error: PyExc)

  /** Lines 112-164. `refetch` selects the corrected wait, which reads the
      object again on each retry. */
  function ExtractSummary(event: Event, bucket: Bucket, refetch: bool): (r: Extraction)
    ensures event.time.None? ==> r == Threw(KeyError)
    ensures event.time.Some? && (event.detail.None? || event.detail.value.contactArn.None?) ==>
      r == Threw(KeyError)
    ensures r.Extracted? ==> r.referenceId == ReferenceId(event.detail.value.contactArn.value)
    ensures r.Threw? ==> r.error in {KeyError, AttributeError} || r.error.ValueError?
  {
    if event.time.None? then Threw(KeyError)
    else if event.detail.None? || event.detail.value.contactArn.None? then Threw(KeyError)
    else
      var arn := event.detail.value.contactArn.value;
      var referenceId := ReferenceId(arn);
      var prefix := S3Prefix(event.time.value, referenceId);
      match bucket
      case ListDenied(status, message) => StatusDict(status, message)
      case Objects(objects) =>
        match FirstMatch(objects, prefix)
        case None => StatusDict(404, NoMatchMessage)
        case Some(i) =>
          match objects[i].fetch
          case FetchDenied(status, message) => StatusDict(status, message)
          case Fetched(Undecodable(message), _) => Threw(ValueError(message))
          case Fetched(Parsed(data), rereads) =>
            var readings := [data] + rereads;
            var waits := if refetch then WaitsRefetching(readings) else WaitsAsWritten(data);
            var summary := if refetch then SummaryContent(readings[waits]) else SummaryContent(data);
            SummaryErrors(readings[if refetch then waits else 0]);
            match summary
            case Found(s) => Extracted(s, referenceId, waits)
            case Raised(e) => Threw(e)
  }

  /** Reading the summary raises AttributeError at most. */
  lemma SummaryErrors(data: Json)
    ensures SummaryContent(data).Raised? ==> SummaryContent(data).error == AttributeError
  {
    ChainErrors(data, SummaryKeys, SummaryLast);
  }

  lemma {:induction false} ChainErrors(v: Json, keys: seq<string>, last: string)
    ensures GetChain(v, keys, last).Raised? ==> GetChain(v, keys, last).error == AttributeError
    decreases |keys|
  {
    if |keys| > 0 {
      match DictGet(v, keys[0], JObj(map[]))
      case Found(w) => ChainErrors(w, keys[1..], last);
      case Raised(e) =>
    }
  }

  /** A summary present in the analysis is what the extraction returns. */
  lemma ExtractsPresentSummary(event: Event, objects: seq<S3Object>, i: nat, data: Json, rereads: seq<Json>, refetch: bool)
    requires event.time.Some? && event.detail.Some? && event.detail.value.contactArn.Some?
    requires var arn := event.detail.value.contactArn.value;
      FirstMatch(objects, S3Prefix(event.time.value, ReferenceId(arn))) == Some(i)
    requires objects[i].fetch == Fetched(Parsed(data), rereads)
    requires NestedValue(data, SummaryKeys + [SummaryLast]).Some?
    requires Truthy(NestedValue(data, SummaryKeys + [SummaryLast]).value)
    ensures var r := ExtractSummary(event, Objects(objects), refetch);
      && r.Extracted?
      && r.summary == NestedValue(data, SummaryKeys + [SummaryLast]).value
      && r.waits == 0
  {
    GetChainAgreesWithNested(data, SummaryKeys, SummaryLast);
    var readings := [data] + rereads;
    assert readings[0] == data;
    assert RefetchFrom(readings, 0) == 0;
  }

  // ---------------------------------------------------------------------
  // The call record

  /** Line 169: the OData filter selecting the call by its external id. */
  function DisplayFilter(referenceId: string): (f: string)
    ensures StartsWith(f, FilterHead) && EndsWith(f, "'")
    ensures |f| == |FilterHead| + |referenceId| + 1
  {
    var f := FilterHead + referenceId + "'";
    assert f[..|FilterHead|] == FilterHead;
    f
  }

  const FilterHead := "externalId.displayId eq '"

  /** Reading the external id back out of a filter. */
  function FilterId(f: string): Option<string>
  {
    if StartsWith(f, FilterHead) && EndsWith(f, "'") && |f| > |FilterHead|
    then Some(f[|FilterHead|..|f| - 1])
    else None
  }

  lemma FilterRoundTrip(referenceId: string)
    ensures FilterId(DisplayFilter(referenceId)) == Some(referenceId)
  {
    var f := DisplayFilter(referenceId);
    assert f[|FilterHead|..|f| - 1] == referenceId;
  }

  /** Different reference ids give different filters. */
  lemma DisplayFilterInjective(a: string, b: string)
    requires DisplayFilter(a) == DisplayFilter(b)
    ensures a == b
  {
    FilterRoundTrip(a);
    FilterRoundTrip(b);
  }

  /** What `extract_call_details` returns: the id and the update timestamp
      (both None after a KeyError), or the exception it lets escape. */
  datatype Details = Details(callId: Json, updatedOn: Json) | DetailsThrew(error: PyExc)

  const IdPath := [Key("value"), Idx(0), Key("id")]
  const UpdatedOnPath := [Key("value"), Idx(0), Key("adminData"), Key("updatedOn")]

  /** Lines 182-193: only KeyError is caught; IndexError (no calls found) and
      TypeError (no record at all) escape. */
  function CallDetails(record: Json): (r: Details)
    ensures r.DetailsThrew? ==> r.error == IndexError || r.error == TypeError
    ensures SubscriptPath(record, IdPath).Raised? && SubscriptPath(record, IdPath).error != KeyError ==>
      r == DetailsThrew(SubscriptPath(record, IdPath).error)
    ensures (SubscriptPath(record, IdPath).Found? && SubscriptPath(record, UpdatedOnPath).Raised?
             && SubscriptPath(record, UpdatedOnPath).error != KeyError) ==>
      r == DetailsThrew(SubscriptPath(record, UpdatedOnPath).error)
    ensures SubscriptPath(record, IdPath).Found? && SubscriptPath(record, UpdatedOnPath).Found? ==>
      r == Details(SubscriptPath(record, IdPath).value, SubscriptPath(record, UpdatedOnPath).value)
    ensures SubscriptPath(record, IdPath) == Raised(KeyError) ==> r == Details(JNull, JNull)
    ensures SubscriptPath(record, IdPath).Found? && SubscriptPath(record, UpdatedOnPath) == Raised(KeyError) ==>
      r == Details(JNull, JNull)
  {
    SubscriptPathErrors(record, IdPath);
    SubscriptPathErrors(record, UpdatedOnPath);
    match SubscriptPath(record, IdPath)
    case Raised(KeyError) => Details(JNull, JNull)
    case Raised(e) => DetailsThrew(e)
    case Found(callId) =>
      match SubscriptPath(record, UpdatedOnPath)
      case Raised(KeyError) => Details(JNull, JNull)
      case Raised(e) => DetailsThrew(e)
      case Found(updatedOn) => Details(callId, updatedOn)
  }

  /** The phone-service reply shape: a list of calls under `value`. */
  function CallRecord(calls: seq<Json>): Json
  {
    JObj(map["value" := JArr(calls)])
  }

  function CallEntry(callId: Json, updatedOn: Json): Json
  {
    JObj(map["id" := callId, "adminData" := JObj(map["updatedOn" := updatedOn])])
  }

  /** The first call of a well-formed reply gives its id and timestamp. */
  lemma DetailsOfFirstCall(callId: Json, updatedOn: Json, others: seq<Json>)
    ensures CallDetails(CallRecord([CallEntry(callId, updatedOn)] + others)) == Details(callId, updatedOn)
  {
    var record := CallRecord([CallEntry(callId, updatedOn)] + others);
    var entry := CallEntry(callId, updatedOn);
    assert SubscriptPath(record, IdPath) == Found(callId) by {
      assert IdPath[1..][1..][1..] == [];
    }
    assert SubscriptPath(record, UpdatedOnPath) == Found(updatedOn) by {
      assert UpdatedOnPath[1..][1..][1..][1..] == [];
    }
  }

  /** A reply missing a key of either path is not an error: lines 191-193
      turn the KeyError into `(None, None)`, so the call id found on the
      first path is dropped, and the run patches `<collection>/None` with
      `if-Match: None` and replies 200. */
  lemma MissingKeyPatchesNone(base: string, collection: string, summary: Json, referenceId: string,
                              fields: map<string, Json>, update: Exchange, failedIsError: bool)
    requires "value" !in fields
    ensures CallDetails(JObj(fields)) == Details(JNull, JNull)
    ensures CallDetails(CallRecord([JObj(map["id" := JStr("x")])])) == Details(JNull, JNull)
    ensures update.Replied? ==>
      var r := LookUpAndPatch(base, collection, summary, referenceId, Replied(JObj(fields)), update, failedIsError);
      && r.response.statusCode == 200 && |r.sent| == 2
      && r.sent[1] == PatchCall(Url(base, PathWithId(collection, JNull)), JNull, summary)
  {
    var record := CallRecord([JObj(map["id" := JStr("x")])]);
    assert IdPath[1..][1..][1..] == [];
    assert SubscriptPath(record, IdPath) == Found(JStr("x"));
    assert UpdatedOnPath[1..][1..] == [Key("adminData"), Key("updatedOn")];
    assert SubscriptPath(record, UpdatedOnPath) == Raised(KeyError);
  }

  /** A reply listing no calls raises IndexError. */
  lemma NoCallsRaises()
    ensures CallDetails(CallRecord([])) == DetailsThrew(IndexError)
  {
    assert IdPath[1..][1..] == [Key("id")];
  }

  /** No reply at all (`None`) raises TypeError. */
  lemma NoRecordRaises()
    ensures CallDetails(JNull) == DetailsThrew(TypeError)
  {
  }

  // ---------------------------------------------------------------------
  // lambda_handler

  /** Lines 87-104: the status and body each exception maps to. */
  function Classify(e: PyExc): (r: Response)
    ensures r.statusCode == 400 <==> e.ValueError?
    ensures e.ValueError? ==> r.body == ErrorBody(e.message)
    ensures e == RequestException ==> r == Response(500, ErrorBody(ServiceMessage))
    ensures !e.ValueError? && e != RequestException ==> r == Response(500, ErrorBody(UnexpectedMessage))
  {
    match e
    case ValueError(message) => Response(400, ErrorBody(message))
    case RequestException => Response(500, ErrorBody(ServiceMessage))
    case _ => Response(500, ErrorBody(UnexpectedMessage))
  }

  /** The rule check (lines 58-62): the rule name, or the exception. */
  function CheckRule(event: Event): (r: Result)
    ensures r.Success? <==> event.detail.Some? && event.detail.value.ruleName == Some(SupportedRule)
    ensures event.detail.None? || event.detail.value.ruleName.None? ==> r == Failure(KeyError)
    ensures event.detail.Some? && event.detail.value.ruleName.Some? && event.detail.value.ruleName.value != SupportedRule ==>
      r == Failure(ValueError("Unsupported ruleName: " + event.detail.value.ruleName.value))
  {
    if event.detail.None? || event.detail.value.ruleName.None? then Failure(KeyError)
    else if event.detail.value.ruleName.value != SupportedRule then
      Failure(ValueError("Unsupported ruleName: " + event.detail.value.ruleName.value))
    else Success(())
  }

  datatype Result = Success(unit: ()) | Failure(error: PyExc)

  /** Lines 72-86 once summary and reference id are known: look the call up,
      read its details, patch it. `failedIsError` selects the corrected
      reading of a failed exchange as a RequestException. */
  function LookUpAndPatch(base: string, collection: string, summary: Json, referenceId: string,
                          lookup: Exchange, update: Exchange, failedIsError: bool): (r: Run)
    ensures |r.sent| >= 1 && r.sent[0] == GetCalls(Url(base, Path(collection)), DisplayFilter(referenceId))
    ensures |r.sent| <= 2
    ensures |r.sent| == 2 ==> r.sent[1].PatchCall? && r.sent[1].transcript == summary
    ensures r.response.statusCode == 200 ==> |r.sent| == 2
    ensures !failedIsError ==>
      r.response.statusCode == 200 || r.response == Response(500, ErrorBody(UnexpectedMessage))
  {
    var get := GetCalls(Url(base, Path(collection)), DisplayFilter(referenceId));
    if failedIsError && lookup.Failed? then Run([get], Classify(RequestException))
    else
      var record := if lookup.Replied? then lookup.body else JNull;
      match CallDetails(record)
      case DetailsThrew(e) => Run([get], Classify(e))
      case Details(callId, updatedOn) =>
        var patch := PatchCall(Url(base, PathWithId(collection, callId)), updatedOn, summary);
        if failedIsError && update.Failed? then Run([get, patch], Classify(RequestException))
        else Run([get, patch], Response(200, if update.Replied? then update.body else JNull))
  }

  /** Lines 14-104, as written. */
  function HandleAsWritten(config: Option<Config>, event: Event, bucket: Bucket,
                           lookup: Exchange, update: Exchange): (r: Run)
    ensures config.None? ==> r == Run([], Response(500, ErrorBody(UnexpectedMessage)))
    ensures r.response.statusCode == 200 || r.response.statusCode == 400 || r.response.statusCode == 500
    ensures r.response.statusCode == 500 ==> r.response.body == ErrorBody(UnexpectedMessage)
  {
    match config
    case None => Run([], Classify(ClientError(0, "")))
    case Some(c) =>
      var base := Urls.NormalizeAsWritten(c.baseUrl);
      var collection := Urls.PhoneCallPathAsWritten(c.phoneServicePath);
      match CheckRule(event)
      case Failure(e) => Run([], Classify(e))
      case Success(_) =>
        match ExtractSummary(event, bucket, false)
        case Threw(e) => Run([], Classify(e))
        case StatusDict(_, _) =>
          // Unpacking the two-key dict binds its keys.
          LookUpAndPatch(base, collection, JStr("statusCode"), "body", lookup, update, false)
        case Extracted(summary, referenceId, _) =>
          LookUpAndPatch(base, collection, summary, referenceId, lookup, update, false)
  }

  /** Lines 14-104 as evidently intended: the service path always gets its
      trailing slash, the status dict of a missing or unreadable analysis is
      the reply, a failed exchange is a communication error, and the summary
      wait reads the object again on each retry. */
  function Handle(config: Option<Config>, event: Event, bucket: Bucket,
                  lookup: Exchange, update: Exchange): (r: Run)
    ensures config.None? ==> r == Run([], Response(500, ErrorBody(UnexpectedMessage)))
    ensures r.sent != [] ==>
      && r.sent[0].GetCalls? && r.sent[0].url.reference.Path?
      && EndsWith(r.sent[0].url.reference.path, "/phoneCalls")
  {
    match config
    case None => Run([], Classify(ClientError(0, "")))
    case Some(c) =>
      var base := Urls.NormalizeAsWritten(c.baseUrl);
      var collection := Urls.PhoneCallPath(c.phoneServicePath);
      match CheckRule(event)
      case Failure(e) => Run([], Classify(e))
      case Success(_) =>
        match ExtractSummary(event, bucket, true)
        case Threw(e) => Run([], Classify(e))
        case StatusDict(status, message) => Run([], Response(status, MessageBody(message)))
        case Extracted(summary, referenceId, _) =>
          LookUpAndPatch(base, collection, summary, referenceId, lookup, update, true)
  }

  /** The inputs under which the handler gets past configuration and the
      rule check and reaches the analysis lookup for `arn` at `time`. */
  predicate Admitted(config: Option<Config>, event: Event)
  {
    && config.Some?
    && event.detail.Some? && event.detail.value.ruleName == Some(SupportedRule)
    && event.time.Some? && event.detail.value.contactArn.Some?
  }

  function Prefix(event: Event): string
    requires event.time.Some? && event.detail.Some? && event.detail.value.contactArn.Some?
  {
    S3Prefix(event.time.value, ReferenceId(event.detail.value.contactArn.value))
  }

  /** As written, a missing analysis object never produces the 404: the
      status dict is unpacked into its two keys, so the handler looks up the
      call whose external id is "body" and patches it with "statusCode". */
  lemma MissingAnalysisAsWritten(config: Option<Config>, event: Event, objects: seq<S3Object>,
                                 lookup: Exchange, update: Exchange)
    requires Admitted(config, event)
    requires FirstMatch(objects, Prefix(event)).None?
    ensures var r := HandleAsWritten(config, event, Objects(objects), lookup, update);
      && r.response.statusCode != 404
      && r.sent[0].filter == DisplayFilter("body")
      && (|r.sent| == 2 ==> r.sent[1].transcript == JStr("statusCode"))
  {
    assert CheckRule(event) == Success(());
    assert ExtractSummary(event, Objects(objects), false) == StatusDict(404, NoMatchMessage);
  }

  /** Corrected: a missing analysis object is the 404 reply, and nothing is
      sent to the phone service. */
  lemma MissingAnalysisReported(config: Option<Config>, event: Event, objects: seq<S3Object>,
                                lookup: Exchange, update: Exchange)
    requires Admitted(config, event)
    requires FirstMatch(objects, Prefix(event)).None?
    ensures Handle(config, event, Objects(objects), lookup, update) ==
      Run([], Response(404, MessageBody(NoMatchMessage)))
  {
  }

  /** Corrected: a denied listing or fetch replies with the service's own
      status and message. */
  lemma DeniedAnalysisReported(config: Option<Config>, event: Event, status: int, message: string,
                               objects: seq<S3Object>, lookup: Exchange, update: Exchange)
    requires Admitted(config, event)
    ensures Handle(config, event, ListDenied(status, message), lookup, update) ==
      Run([], Response(status, MessageBody(message)))
    ensures (FirstMatch(objects, Prefix(event)).Some? &&
             objects[FirstMatch(objects, Prefix(event)).value].fetch == FetchDenied(status, message)) ==>
      Handle(config, event, Objects(objects), lookup, update) == Run([], Response(status, MessageBody(message)))
  {
    DeniedListing(config, event, status, message, lookup, update);
    if FirstMatch(objects, Prefix(event)).Some? &&
       objects[FirstMatch(objects, Prefix(event)).value].fetch == FetchDenied(status, message) {
      DeniedFetch(config, event, status, message, objects, lookup, update);
    }
  }

  lemma DeniedListing(config: Option<Config>, event: Event, status: int, message: string,
                      lookup: Exchange, update: Exchange)
    requires Admitted(config, event)
    ensures Handle(config, event, ListDenied(status, message), lookup, update) ==
      Run([], Response(status, MessageBody(message)))
  {
    assert ExtractSummary(event, ListDenied(status, message), true) == StatusDict(status, message);
  }

  lemma DeniedFetch(config: Option<Config>, event: Event, status: int, message: string,
                    objects: seq<S3Object>, lookup: Exchange, update: Exchange)
    requires Admitted(config, event)
    requires FirstMatch(objects, Prefix(event)).Some?
    requires objects[FirstMatch(objects, Prefix(event)).value].fetch == FetchDenied(status, message)
    ensures Handle(config, event, Objects(objects), lookup, update) == Run([], Response(status, MessageBody(message)))
  {
    assert ExtractSummary(event, Objects(objects), true) == StatusDict(status, message);
  }

  /** A rule other than the post-call analytics rule is refused with 400
      and the error text, before anything is read or sent. */
  lemma UnsupportedRuleIs400(config: Option<Config>, event: Event, bucket: Bucket,
                             lookup: Exchange, update: Exchange)
    requires config.Some? && event.detail.Some? && event.detail.value.ruleName.Some?
    requires event.detail.value.ruleName.value != SupportedRule
    ensures HandleAsWritten(config, event, bucket, lookup, update) ==
      Run([], Response(400, ErrorBody("Unsupported ruleName: " + event.detail.value.ruleName.value)))
    ensures Handle(config, event, bucket, lookup, update) ==
      Run([], Response(400, ErrorBody("Unsupported ruleName: " + event.detail.value.ruleName.value)))
  {
  }

  /** As written, failed exchanges are swallowed: a failed lookup ends as
      the TypeError of subscripting None (500, unexpected error), and a
      failed patch is reported as success with a null body. */
  lemma FailedExchangesAsWritten(base: string, collection: string, summary: Json, referenceId: string,
                                 record: Json, update: Exchange)
    ensures LookUpAndPatch(base, collection, summary, referenceId, Failed, update, false).response ==
      Response(500, ErrorBody(UnexpectedMessage))
    ensures CallDetails(record).Details? ==>
      LookUpAndPatch(base, collection, summary, referenceId, Replied(record), Failed, false).response ==
        Response(200, JNull)
  {
    NoRecordRaises();
  }

  /** Corrected: either failed exchange is the communication error. */
  lemma FailedExchangesReported(base: string, collection: string, summary: Json, referenceId: string,
                                record: Json, update: Exchange)
    ensures LookUpAndPatch(base, collection, summary, referenceId, Failed, update, true) ==
      Run([GetCalls(Url(base, Path(collection)), DisplayFilter(referenceId))],
          Response(500, ErrorBody(ServiceMessage)))
    ensures CallDetails(record).Details? ==>
      LookUpAndPatch(base, collection, summary, referenceId, Replied(record), Failed, true).response ==
        Response(500, ErrorBody(ServiceMessage))
  {
  }

  /** The as-written wait never sees a later summary: with an empty summary
      at first reading it sleeps four times and extracts the empty one,
      whatever the later readings of the object hold; the handler then
      patches the call with that empty summary. */
  lemma WaitNeverRecoversAsWritten(config: Option<Config>, event: Event, objects: seq<S3Object>, i: nat,
                                   data: Json, rereads: seq<Json>, lookup: Exchange, update: Exchange)
    requires Admitted(config, event)
    requires FirstMatch(objects, Prefix(event)) == Some(i)
    requires objects[i].fetch == Fetched(Parsed(data), rereads)
    requires SummaryContent(data) == Found(JStr(""))
    ensures ExtractSummary(event, Objects(objects), false) ==
      Extracted(JStr(""), ReferenceId(event.detail.value.contactArn.value), MaxRetries)
    ensures var r := HandleAsWritten(config, event, Objects(objects), lookup, update);
      |r.sent| == 2 ==> r.sent[1].transcript == JStr("")
  {
  }

  /** Corrected: the summary that appears on the first re-read is the one
      returned, after one wait. */
  lemma WaitRecoversOnReread(data: Json, later: Json, rest: seq<Json>)
    requires Pending(SummaryContent(data))
    requires SummaryContent(later).Found? && Truthy(SummaryContent(later).value)
    ensures var readings := [data, later] + rest;
      WaitsRefetching(readings) == 1 && SummaryContent(readings[1]) == SummaryContent(later)
  {
    var readings := [data, later] + rest;
    assert readings[0] == data && readings[1] == later;
    assert RefetchFrom(readings, 1) == 1;
  }

  /** Once summary and reference id are known, the corrected run succeeds
      exactly when the lookup reply yields details (the first call's id and
      version, or `(None, None)` after a KeyError) and the patch replies. */
  lemma LookUpAndPatchSucceeds(base: string, collection: string, summary: Json, referenceId: string,
                               lookup: Exchange, update: Exchange)
    ensures var r := LookUpAndPatch(base, collection, summary, referenceId, lookup, update, true);
      (|r.sent| == 2 && r.response.statusCode == 200) <==>
        lookup.Replied? && CallDetails(lookup.body).Details? && update.Replied?
    ensures var r := LookUpAndPatch(base, collection, summary, referenceId, lookup, update, true);
      |r.sent| == 2 && r.response.statusCode == 200 ==>
        r.response.body == update.body
        && r.sent[1] == PatchCall(Url(base, PathWithId(collection, CallDetails(lookup.body).callId)),
                                  CallDetails(lookup.body).updatedOn, summary)
  {
  }

  /** The corrected handler succeeds exactly when the analysis yields a
      summary, the lookup reply yields details (possibly `(None, None)`),
      and the patch replies. */
  lemma HandleSucceeds(config: Option<Config>, event: Event, bucket: Bucket,
                       lookup: Exchange, update: Exchange)
    ensures var r := Handle(config, event, bucket, lookup, update);
      (|r.sent| == 2 && r.response.statusCode == 200) <==>
        && Admitted(config, event)
        && ExtractSummary(event, bucket, true).Extracted?
        && lookup.Replied? && CallDetails(lookup.body).Details?
        && update.Replied?
  {
    var extraction := ExtractSummary(event, bucket, true);
    if config.Some? && CheckRule(event).Success? && extraction.Extracted? {
      var c := config.value;
      var base, collection := Urls.NormalizeAsWritten(c.baseUrl), Urls.PhoneCallPath(c.phoneServicePath);
      HandleExtracted(config, event, bucket, lookup, update);
      LookUpAndPatchSucceeds(base, collection, extraction.summary, extraction.referenceId, lookup, update);
    } else {
      HandleNotExtracted(config, event, bucket, lookup, update);
    }
  }

  lemma HandleExtracted(config: Option<Config>, event: Event, bucket: Bucket,
                        lookup: Exchange, update: Exchange)
    requires config.Some? && CheckRule(event).Success? && ExtractSummary(event, bucket, true).Extracted?
    ensures var c, x := config.value, ExtractSummary(event, bucket, true);
      Handle(config, event, bucket, lookup, update) ==
        LookUpAndPatch(Urls.NormalizeAsWritten(c.baseUrl), Urls.PhoneCallPath(c.phoneServicePath),
                       x.summary, x.referenceId, lookup, update, true)
  {
  }

  lemma HandleNotExtracted(config: Option<Config>, event: Event, bucket: Bucket,
                           lookup: Exchange, update: Exchange)
    requires !(config.Some? && CheckRule(event).Success? && ExtractSummary(event, bucket, true).Extracted?)
    ensures Handle(config, event, bucket, lookup, update).sent == []
  {
  }
}
