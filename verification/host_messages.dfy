/** The host page's `message` listener (index.js lines 15-47): which messages
    it ignores, the contact-trace URL it opens for a recording id, and the
    cleaned phone number it dials for an outbound request. Opening the
    window and placing the call through Amazon Connect Streams are left to
    the caller: the model returns what would be opened and dialled. */
module HostMessages {

  import opened Wrappers
  import opened Text
  import opened JsObject

  /** The fields of `event.data` the listener reads. */
  datatype HostMessage = HostMessage(direction: JsValue, recordingId: JsValue, phoneNumber: JsValue)

  /** What happens to an outbound request: nothing, a call to the cleaned
      number, or a `TypeError` because `PhoneNumber` has no `replace`. */
  datatype Dial = NoDial | DialNumber(number: string) | DialThrows

  /** The listener's reaction: it returns at once, or it opens a trace
      window and/or dials. */
  datatype Reaction = Ignored | Reacted(popup: Option<string>, dial: Dial)

  const TracePath := "/contact-trace-records/details/"
  const TimeZoneQuery := "?tz=America/New_York"

  /** Line 22: the contact-trace page of a recording. */
  function TraceUrl(accessUrl: string, recordingId: string): (r: string)
    ensures StartsWith(r, accessUrl + TracePath) && EndsWith(r, TimeZoneQuery)
    ensures |r| == |accessUrl + TracePath| + |recordingId| + |TimeZoneQuery|
  {
    var r := accessUrl + TracePath + recordingId + TimeZoneQuery;
    assert r[..|accessUrl + TracePath|] == accessUrl + TracePath;
    assert r[|r| - |TimeZoneQuery|..] == TimeZoneQuery;
    r
  }

  /** Reading the recording id back out of a trace URL. */
  function RecordingIdOf(accessUrl: string, url: string): Option<string>
  {
    var front := accessUrl + TracePath;
    if StartsWith(url, front) && EndsWith(url, TimeZoneQuery) && |front| + |TimeZoneQuery| <= |url| then
      Some(url[|front|..|url| - |TimeZoneQuery|])
    else None
  }

  /** The opened URL names exactly the recording it was built from. */
  lemma TraceUrlRoundTrip(accessUrl: string, recordingId: string)
    ensures RecordingIdOf(accessUrl, TraceUrl(accessUrl, recordingId)) == Some(recordingId)
  {
    var url := TraceUrl(accessUrl, recordingId);
    var front := accessUrl + TracePath;
    assert url == front + recordingId + TimeZoneQuery;
    assert url[|front|..|url| - |TimeZoneQuery|] == recordingId;
  }

  /** Distinct recordings open distinct pages. */
  lemma TraceUrlInjective(accessUrl: string, a: string, b: string)
    requires TraceUrl(accessUrl, a) == TraceUrl(accessUrl, b)
    ensures a == b
  {
    TraceUrlRoundTrip(accessUrl, a);
    TraceUrlRoundTrip(accessUrl, b);
  }

  /** The characters JavaScript's `\s` matches: the ECMAScript WhiteSpace
      and LineTerminator code points (section 22.2.2.9 of ECMA-262). */
  predicate IsJsWhitespace(c: char)
  {
    var n := c as int;
    || (0x09 <= n <= 0x0D) || n == 0x20 || n == 0xA0 || n == 0x1680
    || (0x2000 <= n <= 0x200A) || n == 0x2028 || n == 0x2029 || n == 0x202F
    || n == 0x205F || n == 0x3000 || n == 0xFEFF
  }

  /** What `/\s|-/g` matches. */
  predicate Removable(c: char)
  {
    IsJsWhitespace(c) || c == '-'
  }

  /** Line 32: the phone number with every match of `/\s|-/g` replaced by
      nothing. */
  function Cleaned(s: string): string
  {
    if |s| == 0 then "" else (if Removable(s[0]) then "" else [s[0]]) + Cleaned(s[1..])
  }

  /** Cleaning works piece by piece. */
  lemma {:induction false} CleanedAppend(a: string, b: string)
    ensures Cleaned(a + b) == Cleaned(a) + Cleaned(b)
    decreases |a|
  {
    if |a| > 0 {
      assert (a + b)[1..] == a[1..] + b;
      CleanedAppend(a[1..], b);
    } else {
      assert a + b == b;
    }
  }

  /** No space, line break or dash is left. */
  lemma {:induction false} CleanedHasNoRemovable(s: string)
    ensures forall i :: 0 <= i < |Cleaned(s)| ==> !Removable(Cleaned(s)[i])
    decreases |s|
  {
    if |s| > 0 {
      CleanedHasNoRemovable(s[1..]);
    }
  }

  /** A number without spaces or dashes is kept as it is. */
  lemma {:induction false} CleanedPlain(s: string)
    requires forall i :: 0 <= i < |s| ==> !Removable(s[i])
    ensures Cleaned(s) == s
    decreases |s|
  {
    if |s| > 0 {
      CleanedPlain(s[1..]);
    }
  }

  /** Cleaning twice is cleaning once. */
  lemma CleanedIdempotent(s: string)
    ensures Cleaned(Cleaned(s)) == Cleaned(s)
  {
    CleanedHasNoRemovable(s);
    CleanedPlain(Cleaned(s));
  }

  /** Every other character is kept as often as it occurs; the removable
      ones are all gone. */
  lemma {:induction false} CleanedCounts(s: string, c: char)
    ensures multiset(Cleaned(s))[c] == if Removable(c) then 0 else multiset(s)[c]
    decreases |s|
  {
    if |s| > 0 {
      CleanedCounts(s[1..], c);
      assert s == [s[0]] + s[1..];
    }
  }

  /** A space or dash between two pieces disappears, so `+1 555-0100` is
      dialled as `+15550100`. */
  lemma CleanedDropsSeparator(x: string, c: char, y: string)
    requires Removable(c)
    ensures Cleaned(x + [c] + y) == Cleaned(x) + Cleaned(y)
  {
    CleanedAppend(x + [c], y);
    CleanedAppend(x, [c]);
    CleanedOne(c);
    assert Cleaned(x) + [] == Cleaned(x);
  }

  lemma CleanedOne(c: char)
    ensures Cleaned([c]) == if Removable(c) then "" else [c]
  {
    assert [c][1..] == [];
  }

  /** Lines 15-47: the listener. A message with neither a truthy direction nor
      a truthy recording id is dropped; otherwise a truthy recording id opens
      its trace page and, independently, the direction `OUT` dials the
      cleaned phone number. */
  function OnMessage(accessUrl: string, m: HostMessage): (r: Reaction)
    ensures r.Ignored? <==> !Truthy(m.direction) && !Truthy(m.recordingId)
    ensures r.Reacted? ==> (r.popup.Some? <==> Truthy(m.recordingId))
    ensures r.Reacted? ==> (r.dial.NoDial? <==> m.direction != Str("OUT"))
    ensures r.Reacted? && r.dial.DialThrows? <==>
      m.direction == Str("OUT") && m.phoneNumber.Undefined?
  {
    if !Truthy(m.direction) && !Truthy(m.recordingId) then Ignored
    else
      var popup := if Truthy(m.recordingId) then Some(TraceUrl(accessUrl, m.recordingId.s)) else None;
      var dial :=
        if m.direction != Str("OUT") then NoDial
        else match m.phoneNumber
          case Str(p) => DialNumber(Cleaned(p))
          case Undefined => DialThrows;
      Reacted(popup, dial)
  }

  /** The page opened for a message is the trace page of its own recording
      id. */
  lemma PopupNamesRecording(accessUrl: string, m: HostMessage)
    requires OnMessage(accessUrl, m).Reacted? && OnMessage(accessUrl, m).popup.Some?
    ensures m.recordingId.Str?
    ensures RecordingIdOf(accessUrl, OnMessage(accessUrl, m).popup.value) == Some(m.recordingId.s)
  {
    TraceUrlRoundTrip(accessUrl, m.recordingId.s);
  }

  /** The number dialled is the message's number without spaces or dashes,
      other characters kept. */
  lemma DialledNumberIsClean(accessUrl: string, m: HostMessage)
    requires OnMessage(accessUrl, m).Reacted? && OnMessage(accessUrl, m).dial.DialNumber?
    ensures m.phoneNumber.Str?
    ensures var n := OnMessage(accessUrl, m).dial.number;
      && (forall i :: 0 <= i < |n| ==> !Removable(n[i]))
      && (forall c :: !Removable(c) ==> multiset(n)[c] == multiset(m.phoneNumber.s)[c])
  {
    var n := OnMessage(accessUrl, m).dial.number;
    CleanedHasNoRemovable(m.phoneNumber.s);
    forall c | !Removable(c)
      ensures multiset(n)[c] == multiset(m.phoneNumber.s)[c]
    {
      CleanedCounts(m.phoneNumber.s, c);
    }
  }

  /** A message with both a recording id and the direction `OUT` opens the
      trace page and dials. */
  lemma BothFire(accessUrl: string, recordingId: string, phone: string)
    requires recordingId != ""
    ensures OnMessage(accessUrl, HostMessage(Str("OUT"), Str(recordingId), Str(phone))) ==
      Reacted(Some(TraceUrl(accessUrl, recordingId)), DialNumber(Cleaned(phone)))
  {
  }

  /** Any other direction, however truthy, opens at most the trace page. */
  lemma OnlyOutDials(accessUrl: string, m: HostMessage)
    requires Truthy(m.direction) && m.direction != Str("OUT")
    ensures OnMessage(accessUrl, m).Reacted? && OnMessage(accessUrl, m).dial == NoDial
  {
  }
}
