/** The agent-desktop contact-event handlers: which lifecycle events post a
    payload, the seed message each one starts from (lines 17-70), and how
    `createPayload` enriches the seed from the contact's attributes before
    serialising it (lines 72-155). Posting to the parent window is left out;
    the model returns the payload text instead. */
module ContactEvents {

  import opened Wrappers
  import opened Text
  import opened JsObject
  import Payload

  datatype ContactEvent = Incoming | Accepted | Connecting | Connected | Ended | Destroyed | Missed

  /** What the handlers read from a contact: its id and its attributes. */
  datatype Contact = Contact(contactId: string, attributes: seq<Attribute>)

  /** The property names the handlers and `createPayload` assign. No other
      name ever enters a message, so the message is keyed by this type and
      each property is spelled out by `Name` when the payload is written. */
  datatype Property =
    | EventType | ActionTemp | Action | Type | ANI | RecordingId
    | Email | Transcript | Custom1 | Custom2 | Custom3 | ExternalReferenceID

  function Name(p: Property): string
  {
    match p
    case EventType => "EventType"
    case ActionTemp => "ActionTemp"
    case Action => "Action"
    case Type => "Type"
    case ANI => "ANI"
    case RecordingId => "RecordingId"
    case Email => "Email"
    case Transcript => "Transcript"
    case Custom1 => "Custom_1"
    case Custom2 => "Custom_2"
    case Custom3 => "Custom_3"
    case ExternalReferenceID => "ExternalReferenceID"
  }

  /** The property a name denotes, if it is one of the message's names. */
  function PropertyNamed(s: string): Option<Property>
  {
    if s == "EventType" then Some(EventType)
    else if s == "ActionTemp" then Some(ActionTemp)
    else if s == "Action" then Some(Action)
    else if s == "Type" then Some(Type)
    else if s == "ANI" then Some(ANI)
    else if s == "RecordingId" then Some(RecordingId)
    else if s == "Email" then Some(Email)
    else if s == "Transcript" then Some(Transcript)
    else if s == "Custom_1" then Some(Custom1)
    else if s == "Custom_2" then Some(Custom2)
    else if s == "Custom_3" then Some(Custom3)
    else if s == "ExternalReferenceID" then Some(ExternalReferenceID)
    else None
  }

  /** Every property is recovered from its name. */
  lemma NameRoundTrip(p: Property)
    ensures PropertyNamed(Name(p)) == Some(p)
  {
  }

  /** Distinct properties have distinct names, so no two properties of a
      message are written under one tag. */
  lemma NameInjective(p: Property, q: Property)
    ensures Name(p) == Name(q) ==> p == q
  {
    NameRoundTrip(p);
    NameRoundTrip(q);
  }

  type Message = Object<Property>

  const TestEmail := "test.user@example.com"

  /** The properties `createPayload` may add; every other property of the
      seed passes through untouched. */
  const EnrichmentKeys: set<Property> :=
    {Type, ANI, RecordingId, Email, Transcript, Custom1, Custom2, Custom3, ExternalReferenceID}

  /** The events whose handler builds and posts a message. */
  predicate Posts(e: ContactEvent)
  {
    e == Accepted || e == Connecting || e == Ended
  }

  /** The two-property object literal `{a: x, b: y}`. */
  function Literal(a: Property, x: string, b: Property, y: string): Message
  {
    Object([a, b], map[a := Str(x), b := Str(y)])
  }

  /** The seed message of each handler; the handlers of the other events
      only log and post nothing. */
  function Seed(e: ContactEvent): (r: Option<Message>)
    ensures r.Some? <==> Posts(e)
  {
    match e
    case Accepted => Some(Literal(EventType, "INBOUND", ActionTemp, "ACCEPT"))
    case Connecting => Some(Literal(EventType, "INBOUND", Action, "NOTIFY"))
    case Ended => Some(Literal(EventType, "UPDATEACTIVITY", Action, "END"))
    case _ => None
  }

  /** The contact's attributes by name, as lines 77-82 collect them into
      `messageObjectTemp`. */
  type Attributes = map<string, string>

  predicate IsVoice(temp: Attributes)
  {
    Lookup(temp, "Channel") == Str("VOICE")
  }

  predicate IsChat(temp: Attributes)
  {
    Lookup(temp, "Channel") == Str("CHAT")
  }

  /** `v && v === s`: how the handlers test an action. */
  predicate Matches(v: JsValue, s: string)
  {
    Truthy(v) && v == Str(s)
  }

  /** Whether the CAD (call-attached data) fields are sent: the action is
      NOTIFY or the temporary action is ACCEPT. */
  predicate SendsCad(m: Message)
  {
    Matches(Read(m, Action), "NOTIFY") || Matches(Read(m, ActionTemp), "ACCEPT")
  }

  /** Lines 86-97: a voice contact is a CALL with its ANI, and an accepted
      one carries the contact id as its recording id. */
  function AddVoiceFields(m: Message, ani: JsValue, contactId: string): (r: Message)
    ensures Get(r, Type) == Some(Str("CALL"))
    ensures Get(r, ANI) == Some(ani)
    ensures Get(r, RecordingId) ==
      if Matches(Read(m, ActionTemp), "ACCEPT") then Some(Str(contactId)) else Get(m, RecordingId)
    ensures forall k {:trigger Get(r, k)} :: k != Type && k != ANI && k != RecordingId ==> Get(r, k) == Get(m, k)
    ensures Valid(m) ==> Valid(r)
  {
    var withAni := Set(Set(m, Type, Str("CALL")), ANI, ani);
    var actionTemp := Read(withAni, ActionTemp);
    if Matches(actionTemp, "ACCEPT") then
      Set(withAni, RecordingId, Str(contactId))
    else withAni
  }

  lemma AddVoiceFieldsExtends(m: Message, ani: JsValue, contactId: string)
    requires Valid(m)
    ensures KeysExtend(m, AddVoiceFields(m, ani, contactId))
  {
    var withType := Set(m, Type, Str("CALL"));
    var withAni := Set(withType, ANI, ani);
    SetExtends(m, Type, Str("CALL"));
    SetExtends(withType, ANI, ani);
    ExtendsTrans(m, withType, withAni);
    var actionTemp := Read(withAni, ActionTemp);
    if Matches(actionTemp, "ACCEPT") {
      SetExtends(withAni, RecordingId, Str(contactId));
      ExtendsTrans(m, withAni, Set(withAni, RecordingId, Str(contactId)));
    }
  }

  /** Lines 100-110: a chat contact is a CHAT with the fixed e-mail address,
      and an ended one carries a blank transcript. */
  function AddChatFields(m: Message): (r: Message)
    ensures Get(r, Type) == Some(Str("CHAT"))
    ensures Get(r, Email) == Some(Str(TestEmail))
    ensures Get(r, Transcript) ==
      if Matches(Read(m, Action), "END") then Some(Str(" ")) else Get(m, Transcript)
    ensures forall k {:trigger Get(r, k)} :: k != Type && k != Email && k != Transcript ==> Get(r, k) == Get(m, k)
    ensures Valid(m) ==> Valid(r)
  {
    var withEmail := Set(Set(m, Type, Str("CHAT")), Email, Str(TestEmail));
    var action := Read(withEmail, Action);
    if Matches(action, "END") then
      Set(withEmail, Transcript, Str(" "))
    else withEmail
  }

  lemma AddChatFieldsExtends(m: Message)
    requires Valid(m)
    ensures KeysExtend(m, AddChatFields(m))
  {
    var withType := Set(m, Type, Str("CHAT"));
    var withEmail := Set(withType, Email, Str(TestEmail));
    SetExtends(m, Type, Str("CHAT"));
    SetExtends(withType, Email, Str(TestEmail));
    ExtendsTrans(m, withType, withEmail);
    var action := Read(withEmail, Action);
    if Matches(action, "END") {
      SetExtends(withEmail, Transcript, Str(" "));
      ExtendsTrans(m, withEmail, Set(withEmail, Transcript, Str(" ")));
    }
  }

  /** Lines 85-111: the channel-dependent properties; a contact on any other
      channel gets none of them. */
  function AddChannelFields(m: Message, temp: Attributes, contactId: string): (r: Message)
    ensures forall k {:trigger Get(r, k)} ::
      (k != Type && k != ANI && k != RecordingId && k != Email && k != Transcript)
      ==> Get(r, k) == Get(m, k)
    ensures Valid(m) ==> Valid(r)
  {
    if IsVoice(temp) then AddVoiceFields(m, Lookup(temp, "ANI"), contactId)
    else if IsChat(temp) then AddChatFields(m)
    else m
  }

  /** The channel properties after the channel step: a CALL with its ANI
      (and the recording id when accepted) for voice, a CHAT with the e-mail
      (and the transcript when ended) for chat, nothing for other channels. */
  lemma ChannelValues(m: Message, temp: Attributes, contactId: string)
    ensures var r := AddChannelFields(m, temp, contactId);
      && Get(r, Type) ==
        (if IsVoice(temp) then Some(Str("CALL")) else if IsChat(temp) then Some(Str("CHAT")) else Get(m, Type))
      && Get(r, ANI) == (if IsVoice(temp) then Some(Lookup(temp, "ANI")) else Get(m, ANI))
      && Get(r, RecordingId) ==
        (if IsVoice(temp) && Matches(Read(m, ActionTemp), "ACCEPT") then Some(Str(contactId))
         else Get(m, RecordingId))
      && Get(r, Email) == (if IsChat(temp) then Some(Str(TestEmail)) else Get(m, Email))
      && Get(r, Transcript) ==
        (if IsChat(temp) && Matches(Read(m, Action), "END") then Some(Str(" "))
         else Get(m, Transcript))
  {
    if IsVoice(temp) {
      assert !IsChat(temp);
    }
  }

  lemma AddChannelFieldsExtends(m: Message, temp: Attributes, contactId: string)
    requires Valid(m)
    ensures KeysExtend(m, AddChannelFields(m, temp, contactId))
  {
    if IsVoice(temp) {
      AddVoiceFieldsExtends(m, Lookup(temp, "ANI"), contactId);
    } else if IsChat(temp) {
      AddChatFieldsExtends(m);
    } else {
      assert m.keys[..|m.keys|] == m.keys;
    }
  }

  /** One CAD field, copied only when the attribute is truthy. */
  function AddIfTruthy(m: Message, key: Property, value: JsValue): (r: Message)
    ensures Get(r, key) == if Truthy(value) then Some(value) else Get(m, key)
    ensures forall k {:trigger Get(r, k)} :: k != key ==> Get(r, k) == Get(m, k)
    ensures Valid(m) ==> Valid(r)
  {
    if Truthy(value) then Set(m, key, value) else m
  }

  lemma AddIfTruthyExtends(m: Message, key: Property, value: JsValue)
    requires Valid(m)
    ensures KeysExtend(m, AddIfTruthy(m, key, value))
  {
    if Truthy(value) {
      SetExtends(m, key, value);
    } else {
      assert m.keys[..|m.keys|] == m.keys;
    }
  }

  /** Lines 113-140: the CAD fields. */
  function AddCadFields(m: Message, temp: Attributes): (r: Message)
    ensures Get(r, Custom1) == CadValue(m, temp, Custom1, "CustomerUUID")
    ensures Get(r, Custom2) == CadValue(m, temp, Custom2, "TicketID")
    ensures Get(r, Custom3) == CadValue(m, temp, Custom3, "Serial")
    ensures forall k {:trigger Get(r, k)} :: k != Custom1 && k != Custom2 && k != Custom3 ==> Get(r, k) == Get(m, k)
    ensures Valid(m) ==> Valid(r)
  {
    if SendsCad(m) then
      AddIfTruthy(AddIfTruthy(AddIfTruthy(m,
        Custom1, Lookup(temp, "CustomerUUID")),
        Custom2, Lookup(temp, "TicketID")),
        Custom3, Lookup(temp, "Serial"))
    else m
  }

  lemma AddCadFieldsExtends(m: Message, temp: Attributes)
    requires Valid(m)
    ensures KeysExtend(m, AddCadFields(m, temp))
  {
    if SendsCad(m) {
      var m1 := AddIfTruthy(m, Custom1, Lookup(temp, "CustomerUUID"));
      var m2 := AddIfTruthy(m1, Custom2, Lookup(temp, "TicketID"));
      AddIfTruthyExtends(m, Custom1, Lookup(temp, "CustomerUUID"));
      AddIfTruthyExtends(m1, Custom2, Lookup(temp, "TicketID"));
      AddIfTruthyExtends(m2, Custom3, Lookup(temp, "Serial"));
      ExtendsTrans(m, m1, m2);
      ExtendsTrans(m, m2, AddIfTruthy(m2, Custom3, Lookup(temp, "Serial")));
    } else {
      assert m.keys[..|m.keys|] == m.keys;
    }
  }

  /** The CAD value a property receives, if any. */
  function CadValue(seed: Message, temp: Attributes, key: Property, attribute: string): Option<JsValue>
  {
    if SendsCad(seed) && Truthy(Lookup(temp, attribute)) then Some(Lookup(temp, attribute)) else Get(seed, key)
  }

  /** Lines 77-143: the message `createPayload` serialises: the seed with
      the channel properties, then the CAD properties, then the external
      reference id. Properties the enrichment does not touch keep their seed
      value. */
  function BuildMessage(seed: Message, temp: Attributes, contactId: string): (r: Message)
    ensures Get(r, ExternalReferenceID) == Some(Str(contactId))
    ensures forall k {:trigger Get(r, k)} :: k !in EnrichmentKeys ==> Get(r, k) == Get(seed, k)
    ensures Valid(seed) ==> Valid(r)
  {
    var withCad := AddCadFields(AddChannelFields(seed, temp, contactId), temp);
    assert forall k :: k !in EnrichmentKeys ==> Get(withCad, k) == Get(seed, k) by {
      forall k | k !in EnrichmentKeys
        ensures Get(withCad, k) == Get(seed, k)
      {
        PassesThrough(seed, temp, contactId, k);
      }
    }
    Set(withCad, ExternalReferenceID, Str(contactId))
  }

  /** A property outside the enrichment keeps its seed value through the
      channel and CAD steps. */
  lemma PassesThrough(seed: Message, temp: Attributes, contactId: string, k: Property)
    requires k !in EnrichmentKeys
    ensures Get(AddCadFields(AddChannelFields(seed, temp, contactId), temp), k) == Get(seed, k)
  {
    ChannelKeeps(seed, temp, contactId, k);
  }

  /** The channel properties of the message, stated against the attributes
      and the seed. */
  lemma BuildMessageChannel(seed: Message, temp: Attributes, contactId: string)
    ensures var r := BuildMessage(seed, temp, contactId);
      && Get(r, Type) ==
        (if IsVoice(temp) then Some(Str("CALL")) else if IsChat(temp) then Some(Str("CHAT")) else Get(seed, Type))
      && Get(r, ANI) == (if IsVoice(temp) then Some(Lookup(temp, "ANI")) else Get(seed, ANI))
      && Get(r, RecordingId) ==
        (if IsVoice(temp) && Matches(Read(seed, ActionTemp), "ACCEPT") then Some(Str(contactId))
         else Get(seed, RecordingId))
      && Get(r, Email) == (if IsChat(temp) then Some(Str(TestEmail)) else Get(seed, Email))
      && Get(r, Transcript) ==
        (if IsChat(temp) && Matches(Read(seed, Action), "END") then Some(Str(" "))
         else Get(seed, Transcript))
  {
    var withChannel := AddChannelFields(seed, temp, contactId);
    ChannelValues(seed, temp, contactId);
    CadKeeps(withChannel, temp, Type);
    CadKeeps(withChannel, temp, ANI);
    CadKeeps(withChannel, temp, RecordingId);
    CadKeeps(withChannel, temp, Email);
    CadKeeps(withChannel, temp, Transcript);
  }

  /** The CAD step leaves every other property as it was. */
  lemma CadKeeps(m: Message, temp: Attributes, k: Property)
    requires k !in {Custom1, Custom2, Custom3}
    ensures Get(AddCadFields(m, temp), k) == Get(m, k)
  {
  }

  /** The CAD properties of the message: copied from truthy attributes when
      the seed's action asks for them. */
  lemma BuildMessageCad(seed: Message, temp: Attributes, contactId: string)
    ensures var r := BuildMessage(seed, temp, contactId);
      && Get(r, Custom1) == CadValue(seed, temp, Custom1, "CustomerUUID")
      && Get(r, Custom2) == CadValue(seed, temp, Custom2, "TicketID")
      && Get(r, Custom3) == CadValue(seed, temp, Custom3, "Serial")
  {
    var withChannel := AddChannelFields(seed, temp, contactId);
    var withCad := AddCadFields(withChannel, temp);
    CadValueOfChannel(seed, temp, contactId, Custom1, "CustomerUUID");
    CadValueOfChannel(seed, temp, contactId, Custom2, "TicketID");
    CadValueOfChannel(seed, temp, contactId, Custom3, "Serial");
  }

  /** The channel step neither changes whether CAD is sent nor touches a CAD
      property. */
  lemma CadValueOfChannel(seed: Message, temp: Attributes, contactId: string, key: Property, attribute: string)
    requires key == Custom1 || key == Custom2 || key == Custom3
    ensures CadValue(AddChannelFields(seed, temp, contactId), temp, key, attribute) == CadValue(seed, temp, key, attribute)
  {
    var withChannel := AddChannelFields(seed, temp, contactId);
    ChannelKeeps(seed, temp, contactId, Action);
    ChannelKeeps(seed, temp, contactId, ActionTemp);
    ChannelKeeps(seed, temp, contactId, key);
    CadValueAgrees(withChannel, seed, temp, key, attribute);
  }

  /** The CAD value depends only on the actions and the property itself. */
  lemma CadValueAgrees(a: Message, b: Message, temp: Attributes, key: Property, attribute: string)
    requires Get(a, Action) == Get(b, Action) && Get(a, ActionTemp) == Get(b, ActionTemp)
    requires Get(a, key) == Get(b, key)
    ensures CadValue(a, temp, key, attribute) == CadValue(b, temp, key, attribute)
  {
  }

  /** The channel step leaves the actions, the CAD properties and the
      reference id as they were. */
  lemma ChannelKeeps(m: Message, temp: Attributes, contactId: string, k: Property)
    requires k !in {Type, ANI, RecordingId, Email, Transcript}
    ensures Get(AddChannelFields(m, temp, contactId), k) == Get(m, k)
  {
  }

  /** The seed's properties keep their order and the added ones follow. */
  lemma BuildMessageKeyOrder(seed: Message, temp: Attributes, contactId: string)
    requires Valid(seed)
    ensures KeysExtend(seed, BuildMessage(seed, temp, contactId))
  {
    var withChannel := AddChannelFields(seed, temp, contactId);
    var withCad := AddCadFields(withChannel, temp);
    AddChannelFieldsExtends(seed, temp, contactId);
    AddCadFieldsExtends(withChannel, temp);
    SetExtends(withCad, ExternalReferenceID, Str(contactId));
    ExtendsTrans(seed, withChannel, withCad);
    ExtendsTrans(seed, withCad, BuildMessage(seed, temp, contactId));
  }

  /** A seed without an external reference id gets one as its last property. */
  lemma BuildMessageReferenceLast(seed: Message, temp: Attributes, contactId: string)
    requires Valid(seed) && ExternalReferenceID !in seed.keys
    ensures var ks := BuildMessage(seed, temp, contactId).keys; |ks| > 0 && ks[|ks| - 1] == ExternalReferenceID
  {
    var withChannel := AddChannelFields(seed, temp, contactId);
    var withCad := AddCadFields(withChannel, temp);
    ReferenceStillAbsent(seed, temp, contactId);
    assert Set(withCad, ExternalReferenceID, Str(contactId)).keys == withCad.keys + [ExternalReferenceID];
  }

  /** Neither the channel step nor the CAD step adds the external reference
      id. */
  lemma ReferenceStillAbsent(seed: Message, temp: Attributes, contactId: string)
    requires Valid(seed) && ExternalReferenceID !in seed.keys
    ensures var withCad := AddCadFields(AddChannelFields(seed, temp, contactId), temp);
      Valid(withCad) && ExternalReferenceID !in withCad.keys
  {
    var withChannel := AddChannelFields(seed, temp, contactId);
    AbsentWhenNone(seed, ExternalReferenceID);
    ChannelKeeps(seed, temp, contactId, ExternalReferenceID);
    CadKeeps(withChannel, temp, ExternalReferenceID);
    AbsentWhenNone(AddCadFields(withChannel, temp), ExternalReferenceID);
  }

  /** The message as the `for ... in` loop sees it: each property under its
      name, in insertion order, with the value it reads. */
  function Named(m: Message): (r: Payload.Properties)
    ensures |r| == |m.keys|
    ensures forall i :: 0 <= i < |r| ==> r[i] == (Name(m.keys[i]), Read(m, m.keys[i]))
  {
    seq(|m.keys|, i requires 0 <= i < |m.keys| => (Name(m.keys[i]), Read(m, m.keys[i])))
  }

  /** Lines 9-70: the payload a lifecycle event posts. Only the accepted,
      connecting and ended handlers build a message; the others only log. */
  function OnEvent(e: ContactEvent, c: Contact): (r: Option<string>)
    ensures r.Some? <==> Posts(e)
    ensures r.Some? ==>
      StartsWith(r.value, Payload.Header) && EndsWith(r.value, Payload.Footer)
  {
    if Seed(e).None? then None
    else Some(Payload.Serialize(Named(BuildMessage(Seed(e).value, Flatten(c.attributes), c.contactId))))
  }

  /** The message an event serialises, for the events that post one. */
  function EventMessage(e: ContactEvent, temp: Attributes, contactId: string): Message
    requires Seed(e).Some?
  {
    BuildMessage(Seed(e).value, temp, contactId)
  }

  /** Each seed lists its two properties once, in the literal's order. */
  lemma SeedKeys(e: ContactEvent)
    requires Posts(e)
    ensures Valid(Seed(e).value)
    ensures Seed(e).value.keys == [EventType, if e == Accepted then ActionTemp else Action]
    ensures ExternalReferenceID !in Seed(e).value.keys
  {
    match e
    case Accepted => LiteralReads("INBOUND", ActionTemp, "ACCEPT");
    case Connecting => LiteralReads("INBOUND", Action, "NOTIFY");
    case Ended => LiteralReads("UPDATEACTIVITY", Action, "END");
  }

  /** What each seed holds: its event type, its action and its temporary
      action, hence whether CAD is sent. */
  lemma SeedActions(e: ContactEvent)
    requires Posts(e)
    ensures var seed := Seed(e).value;
      && Read(seed, EventType) == Str(if e == Ended then "UPDATEACTIVITY" else "INBOUND")
      && Read(seed, ActionTemp) == (if e == Accepted then Str("ACCEPT") else Undefined)
      && Read(seed, Action) ==
        (if e == Connecting then Str("NOTIFY") else if e == Ended then Str("END") else Undefined)
      && (SendsCad(seed) <==> e != Ended)
  {
    match e
    case Accepted => LiteralReads("INBOUND", ActionTemp, "ACCEPT");
    case Connecting => LiteralReads("INBOUND", Action, "NOTIFY");
    case Ended => LiteralReads("UPDATEACTIVITY", Action, "END");
  }

  /** No seed holds a property the enrichment may add. */
  lemma SeedLacksEnrichment(e: ContactEvent, k: Property)
    requires Posts(e) && k in EnrichmentKeys
    ensures Get(Seed(e).value, k) == None
  {
  }

  /** A seed object literal: its two names in order, each with its value,
      and nothing else. */
  lemma LiteralReads(x: string, b: Property, y: string)
    requires b != EventType
    ensures var o := Literal(EventType, x, b, y);
      && Valid(o) && o.keys == [EventType, b]
      && Read(o, b) == Str(y)
      && forall k :: k != EventType && k != b ==> Get(o, k) == None
  {
  }

  /** Every message keeps its seed's event type and actions: INBOUND with
      ActionTemp ACCEPT when accepted, INBOUND with Action NOTIFY when
      connecting, UPDATEACTIVITY with Action END when ended. */
  lemma EventMessageSeedFields(e: ContactEvent, temp: Attributes, contactId: string)
    requires Posts(e)
    ensures var m := EventMessage(e, temp, contactId);
      && Read(m, EventType) == Str(if e == Ended then "UPDATEACTIVITY" else "INBOUND")
      && Read(m, ActionTemp) == (if e == Accepted then Str("ACCEPT") else Undefined)
      && Read(m, Action) ==
        (if e == Connecting then Str("NOTIFY") else if e == Ended then Str("END") else Undefined)
  {
    KeepsSeedFields(Seed(e).value, temp, contactId);
    SeedActions(e);
  }

  /** The enrichment never touches the event type or the actions. */
  lemma KeepsSeedFields(seed: Message, temp: Attributes, contactId: string)
    ensures var m := BuildMessage(seed, temp, contactId);
      && Get(m, EventType) == Get(seed, EventType)
      && Get(m, ActionTemp) == Get(seed, ActionTemp)
      && Get(m, Action) == Get(seed, Action)
  {
    assert EventType !in EnrichmentKeys && ActionTemp !in EnrichmentKeys && Action !in EnrichmentKeys;
  }

  /** An accepted voice contact carries its own id as recording id; an
      accepted contact on another channel carries none. */
  lemma AcceptedRecordingId(temp: Attributes, contactId: string)
    ensures Get(EventMessage(Accepted, temp, contactId), RecordingId) ==
      if IsVoice(temp) then Some(Str(contactId)) else None
  {
    BuildMessageChannel(Seed(Accepted).value, temp, contactId);
    SeedActions(Accepted);
    SeedLacksEnrichment(Accepted, RecordingId);
  }

  /** Only the accepted handler sets ActionTemp, so the connecting and ended
      messages never carry a recording id. */
  lemma OnlyAcceptedRecords(e: ContactEvent, temp: Attributes, contactId: string)
    requires e == Connecting || e == Ended
    ensures Get(EventMessage(e, temp, contactId), RecordingId) == None
  {
    BuildMessageChannel(Seed(e).value, temp, contactId);
    SeedActions(e);
    SeedLacksEnrichment(e, RecordingId);
  }

  /** An ended chat carries the blank transcript; no other message has one. */
  lemma TranscriptOnlyOnEndedChat(e: ContactEvent, temp: Attributes, contactId: string)
    requires Seed(e).Some?
    ensures Get(EventMessage(e, temp, contactId), Transcript) ==
      if e == Ended && IsChat(temp) then Some(Str(" ")) else None
  {
    BuildMessageChannel(Seed(e).value, temp, contactId);
    SeedActions(e);
    SeedLacksEnrichment(e, Transcript);
  }

  /** The accepted and connecting messages carry each CAD property exactly
      when the contact's attribute is truthy, with the attribute's value. */
  lemma CadIffTruthy(e: ContactEvent, temp: Attributes, contactId: string)
    requires e == Accepted || e == Connecting
    ensures var m := EventMessage(e, temp, contactId);
      && (Get(m, Custom1).Some? <==> Truthy(Lookup(temp, "CustomerUUID")))
      && (Get(m, Custom2).Some? <==> Truthy(Lookup(temp, "TicketID")))
      && (Get(m, Custom3).Some? <==> Truthy(Lookup(temp, "Serial")))
      && (Get(m, Custom1).Some? ==> Get(m, Custom1).value == Lookup(temp, "CustomerUUID"))
      && (Get(m, Custom2).Some? ==> Get(m, Custom2).value == Lookup(temp, "TicketID"))
      && (Get(m, Custom3).Some? ==> Get(m, Custom3).value == Lookup(temp, "Serial"))
  {
    BuildMessageCad(Seed(e).value, temp, contactId);
    SeedActions(e);
    SeedLacksEnrichment(e, Custom1);
    SeedLacksEnrichment(e, Custom2);
    SeedLacksEnrichment(e, Custom3);
  }

  /** The ended message never carries CAD properties. */
  lemma EndedSendsNoCad(temp: Attributes, contactId: string)
    ensures var m := EventMessage(Ended, temp, contactId);
      Get(m, Custom1) == None && Get(m, Custom2) == None && Get(m, Custom3) == None
  {
    BuildMessageCad(Seed(Ended).value, temp, contactId);
    SeedActions(Ended);
    SeedLacksEnrichment(Ended, Custom1);
    SeedLacksEnrichment(Ended, Custom2);
    SeedLacksEnrichment(Ended, Custom3);
  }

  /** Every message lists each property once, opens with its seed's two
      properties in the seed's order, and ends with the external reference
      id. */
  lemma EventMessageOrder(e: ContactEvent, temp: Attributes, contactId: string)
    requires Seed(e).Some?
    ensures var ks := EventMessage(e, temp, contactId).keys;
      && Valid(EventMessage(e, temp, contactId))
      && |ks| >= 3
      && ks[..2] == [EventType, if e == Accepted then ActionTemp else Action]
      && ks[|ks| - 1] == ExternalReferenceID
  {
    SeedKeys(e);
    MessageOrder(Seed(e).value, temp, contactId);
  }

  /** A two-property seed without a reference id keeps its properties in
      front, and the reference id closes the message. */
  lemma MessageOrder(seed: Message, temp: Attributes, contactId: string)
    requires Valid(seed) && |seed.keys| == 2 && ExternalReferenceID !in seed.keys
    ensures var ks := BuildMessage(seed, temp, contactId).keys;
      && |ks| >= 3 && ks[..2] == seed.keys && ks[|ks| - 1] == ExternalReferenceID
  {
    BuildMessageKeyOrder(seed, temp, contactId);
    BuildMessageReferenceLast(seed, temp, contactId);
    OpensAndCloses(seed.keys, BuildMessage(seed, temp, contactId).keys);
  }

  /** Names that open with two others and close with the reference id
      number at least three. */
  lemma OpensAndCloses(front: seq<Property>, ks: seq<Property>)
    requires |front| == 2 && ExternalReferenceID !in front
    requires |front| <= |ks| && ks[..|front|] == front
    requires |ks| > 0 && ks[|ks| - 1] == ExternalReferenceID
    ensures |ks| >= 3 && ks[..2] == front && ks[|ks| - 1] == ExternalReferenceID
  {
  }

  /** Every property of the message reads as text without `<`. */
  ghost predicate Readable(m: Message)
  {
    forall k :: '<' !in AsText(Read(m, k))
  }

  /** No attribute reads as text with `<`. */
  ghost predicate AttributesPlain(temp: Attributes)
  {
    forall n :: '<' !in AsText(Lookup(temp, n))
  }

  /** No property name contains `>`. */
  lemma NamePlain(p: Property)
    ensures '>' !in Name(p)
  {
  }

  /** The literal values the enrichment writes, and `undefined`, hold no
      `<`. */
  lemma ValuesPlain()
    ensures '<' !in "CALL" && '<' !in "CHAT" && '<' !in TestEmail && '<' !in " "
    ensures '<' !in AsText(Undefined)
  {
  }

  lemma SetKeepsReadable(o: Message, k: Property, v: JsValue)
    requires Readable(o) && '<' !in AsText(v)
    ensures Readable(Set(o, k, v))
  {
    var r := Set(o, k, v);
    forall k' ensures '<' !in AsText(Read(r, k')) {
      if k' != k {
        assert Read(r, k') == Read(o, k');
      }
    }
  }

  lemma VoiceKeepsReadable(m: Message, ani: JsValue, contactId: string)
    requires Readable(m) && '<' !in AsText(ani) && '<' !in contactId
    ensures Readable(AddVoiceFields(m, ani, contactId))
  {
    var withType := Set(m, Type, Str("CALL"));
    var withAni := Set(withType, ANI, ani);
    ValuesPlain();
    SetKeepsReadable(m, Type, Str("CALL"));
    SetKeepsReadable(withType, ANI, ani);
    var actionTemp := Read(withAni, ActionTemp);
    if Matches(actionTemp, "ACCEPT") {
      SetKeepsReadable(withAni, RecordingId, Str(contactId));
    }
  }

  lemma ChatKeepsReadable(m: Message)
    requires Readable(m)
    ensures Readable(AddChatFields(m))
  {
    var withType := Set(m, Type, Str("CHAT"));
    var withEmail := Set(withType, Email, Str(TestEmail));
    ValuesPlain();
    SetKeepsReadable(m, Type, Str("CHAT"));
    SetKeepsReadable(withType, Email, Str(TestEmail));
    var action := Read(withEmail, Action);
    if Matches(action, "END") {
      SetKeepsReadable(withEmail, Transcript, Str(" "));
    }
  }

  lemma ChannelKeepsReadable(m: Message, temp: Attributes, contactId: string)
    requires Readable(m) && AttributesPlain(temp) && '<' !in contactId
    ensures Readable(AddChannelFields(m, temp, contactId))
  {
    if IsVoice(temp) {
      VoiceKeepsReadable(m, Lookup(temp, "ANI"), contactId);
    } else if IsChat(temp) {
      ChatKeepsReadable(m);
    }
  }

  lemma CadKeepsReadable(m: Message, temp: Attributes)
    requires Readable(m) && AttributesPlain(temp)
    ensures Readable(AddCadFields(m, temp))
  {
    if SendsCad(m) {
      var u, t, n := Lookup(temp, "CustomerUUID"), Lookup(temp, "TicketID"), Lookup(temp, "Serial");
      var m1 := AddIfTruthy(m, Custom1, u);
      var m2 := AddIfTruthy(m1, Custom2, t);
      if Truthy(u) { SetKeepsReadable(m, Custom1, u); }
      if Truthy(t) { SetKeepsReadable(m1, Custom2, t); }
      if Truthy(n) { SetKeepsReadable(m2, Custom3, n); }
    }
  }

  /** Enriching a readable seed with readable attributes and id gives a
      readable message. */
  lemma MessageKeepsReadable(seed: Message, temp: Attributes, contactId: string)
    requires Readable(seed) && AttributesPlain(temp) && '<' !in contactId
    ensures Readable(BuildMessage(seed, temp, contactId))
  {
    var withChannel := AddChannelFields(seed, temp, contactId);
    ChannelKeepsReadable(seed, temp, contactId);
    CadKeepsReadable(withChannel, temp);
    SetKeepsReadable(AddCadFields(withChannel, temp), ExternalReferenceID, Str(contactId));
  }

  /** No attribute value and not the contact id contains `<`. */
  predicate MarkupFree(c: Contact)
  {
    && '<' !in c.contactId
    && forall i :: 0 <= i < |c.attributes| ==> '<' !in c.attributes[i].value
  }

  /** The flattened attributes hold only values some attribute had. */
  lemma FlattenMarkupFree(c: Contact)
    requires MarkupFree(c)
    ensures AttributesPlain(Flatten(c.attributes))
  {
    var temp := Flatten(c.attributes);
    forall n ensures '<' !in AsText(Lookup(temp, n)) {
      if n in temp {
        FlattenLastWins(c.attributes, n);
      } else {
        ValuesPlain();
      }
    }
  }

  lemma SeedReadable(e: ContactEvent)
    requires Posts(e)
    ensures Readable(Seed(e).value)
  {
    match e
    case Accepted => LiteralReadable("INBOUND", ActionTemp, "ACCEPT");
    case Connecting => LiteralReadable("INBOUND", Action, "NOTIFY");
    case Ended => LiteralReadable("UPDATEACTIVITY", Action, "END");
  }

  lemma LiteralReadable(x: string, b: Property, y: string)
    requires b != EventType && '<' !in x && '<' !in y
    ensures Readable(Literal(EventType, x, b, y))
  {
    var o := Literal(EventType, x, b, y);
    ValuesPlain();
    forall k ensures '<' !in AsText(Read(o, k)) {
      if k != EventType && k != b {
        assert Read(o, k) == Undefined;
      }
    }
  }

  /** A message whose values hold no `<` is written as a payload that reads
      back. */
  lemma NamedDecodable(m: Message)
    requires Readable(m)
    ensures Payload.Decodable(Named(m))
  {
    var named := Named(m);
    forall i | 0 <= i < |named|
      ensures '>' !in named[i].0 && '<' !in AsText(named[i].1)
    {
      NamePlain(m.keys[i]);
    }
    Payload.DecodableWhenPlain(named);
  }

  /** The payload of every posting event reads back, property by property
      and in order, as long as no attribute value and not the contact id
      contains `<`. */
  lemma EventPayloadReadsBack(e: ContactEvent, c: Contact)
    requires Posts(e) && MarkupFree(c)
    ensures OnEvent(e, c).Some?
    ensures var m := EventMessage(e, Flatten(c.attributes), c.contactId);
      Payload.Parse(OnEvent(e, c).value) == Some(Payload.Rendered(Named(m)))
  {
    var temp := Flatten(c.attributes);
    var m := EventMessage(e, temp, c.contactId);
    FlattenMarkupFree(c);
    SeedReadable(e);
    MessageKeepsReadable(Seed(e).value, temp, c.contactId);
    NamedDecodable(m);
    Payload.ParseSerialize(Named(m));
  }
}
