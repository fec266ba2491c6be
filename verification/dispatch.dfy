/** `send_incident` of `handlers.py`: persist the report, then make one
    delivery attempt on the channel recorded at the start of the intake.

    Network and SMTP outcomes are parameters. An exception that escapes the
    handler is reported in `raised`; it ends the handler, so no reply
    follows it. */
module Dispatch {
  import opened Basics
  import opened Store
  import opened JsonValues
  import opened Intake

  /** What `session.post` produced: it raised, or it answered with a status
      and a body that `response.json()` decoded (`None` when it could not). */
  datatype HttpOutcome = TransportFailure | Response(status: int, body: Option<Json>)

  /** What the SMTP server side of the exchange does: it accepts the mail,
      or it raises with this message while connecting or greeting (before
      `sendmail` encodes the body), or later, while taking the mail or
      quitting. */
  datatype SmtpOutcome = Sent | ConnectFailure(detail: string) | DeliveryFailure(detail: string)

  /** Why the SMTP branch replied with an error: an exception from the
      server side, or `UnicodeEncodeError` because `sendmail` encodes a
      `str` body as ASCII. */
  datatype SmtpCause = ServerError(detail: string) | NotAscii

  /** The replies `send_incident` writes to the chat. */
  datatype Reply = Registered | ApiSent | ApiError | SmtpError(cause: SmtpCause)

  /** The single outbound call, if any. */
  datatype Delivery = NoDelivery | Post(payload: Json) | Mail(body: string)

  /** Exceptions that escape `send_incident`. */
  datatype Raised =
    | StorageFailure(error: DbError)  // `sqlite3.IntegrityError` from the insert
    | TransportRaised                 // the POST itself raised
    | UnboundResult                   // non-200: `data_from_api` was never assigned
    | NotJson                         // `response.json()` raised
    | BadEcho                         // `KeyError`/`TypeError` reading the echo

  datatype Outcome = Outcome(db: Db, replies: seq<Reply>, delivery: Delivery, raised: Option<Raised>)

  /** The prefix of every SMTP body. */
  const SmtpPrefix: string := "Incident info:"

  // ------------------------------------------------------------ API branch

  /** `{'incident': {'theme': ..., 'description': ..., 'contact': ..., 'file': ...}}`. */
  function Payload(r: Report): (j: Json)
    ensures j.Object? && j.fields.Keys == {"incident"}
    ensures j.fields["incident"].Object?
    ensures j.fields["incident"].fields.Keys == {"theme", "description", "contact", "file"}
  {
    Object(map["incident" := Object(map[
      "theme" := Encode(r.theme),
      "description" := Encode(r.description),
      "contact" := Encode(r.contact),
      "file" := Encode(r.file)])])
  }

  /** How a receiver reads a report back out of a payload. */
  function DecodeReport(j: Json): Option<Report>
  {
    match Subscript(j, "incident")
    case None => None
    case Some(inner) =>
      if !inner.Object? then None
      else
        var f := inner.fields;
        if "theme" !in f || "description" !in f || "contact" !in f || "file" !in f then None
        else
          match (Decode(f["theme"]), Decode(f["description"]), Decode(f["contact"]), Decode(f["file"]))
          case (Some(t), Some(d), Some(c), Some(p)) => Some(Report(t, d, c, p))
          case _ => None
  }

  /** The payload mirrors the report: decoding it gives the report back. */
  lemma PayloadRoundTrip(r: Report)
    ensures DecodeReport(Payload(r)) == Some(r)
  {
    var f := Payload(r).fields["incident"].fields;
    DecodeEncode(r.theme);
    DecodeEncode(r.description);
    DecodeEncode(r.contact);
    DecodeEncode(r.file);
    assert Decode(f["theme"]) == Some(r.theme);
  }

  /** A body that echoes a report: `body['json']['incident']` has both a
      `theme` and a `description` entry. */
  predicate EchoConfirms(body: Json)
  {
    && body.Object? && "json" in body.fields
    && var echo := body.fields["json"];
       && echo.Object? && "incident" in echo.fields
       && Contains(echo.fields["incident"], "theme") == Some(true)
       && Contains(echo.fields["incident"], "description") == Some(true)
  }

  /** The API answer deserves the success reply. */
  predicate Confirms(http: HttpOutcome)
  {
    http.Response? && http.status == 200 && http.body.Some? && EchoConfirms(http.body.value)
  }

  /** The replies (at most one) and the escaping exception of the API branch
      after the POST. */
  datatype Verdict = Verdict(replies: seq<Reply>, raised: Option<Raised>)

  /** In `send_incident`, after the POST: read the echo of a 200 answer;
      any other status leaves `data_from_api` unbound, so the `if` raises. */
  function ApiVerdict(http: HttpOutcome): (v: Verdict)
    ensures |v.replies| + (if v.raised.Some? then 1 else 0) == 1
    ensures ApiSent in v.replies <==> Confirms(http)
    ensures v.replies == [ApiError] ==> http.Response? && http.status == 200
    ensures http.TransportFailure? ==> v.raised == Some(TransportRaised)
    ensures http.Response? && http.status != 200 ==> v == Verdict([], Some(UnboundResult))
    // a 200 answer the handler cannot read raises, with no reply
    ensures http.Response? && http.status == 200 && http.body.None? ==> v == Verdict([], Some(NotJson))
    ensures (&& http.Response? && http.status == 200 && http.body.Some? && Truthy(http.body.value)
             && (|| Subscript(http.body.value, "json").None?
                 || Subscript(Subscript(http.body.value, "json").value, "incident").None?
                 || Contains(Subscript(Subscript(http.body.value, "json").value, "incident").value, "theme").None?)) ==>
              v == Verdict([], Some(BadEcho))
    // the error reply: a falsy body, or an echo `in` can search that lacks a key
    ensures http.Response? && http.status == 200 && http.body.Some? && !Truthy(http.body.value) ==>
              v == Verdict([ApiError], None)
    ensures (&& http.Response? && http.status == 200 && http.body.Some?
             && Subscript(http.body.value, "json").Some?
             && Subscript(Subscript(http.body.value, "json").value, "incident").Some?
             && Contains(Subscript(Subscript(http.body.value, "json").value, "incident").value, "theme").Some?
             && !Confirms(http)) ==>
              v == Verdict([ApiError], None)
  {
    match http
    case TransportFailure => Verdict([], Some(TransportRaised))
    case Response(status, body) =>
      if status != 200 then Verdict([], Some(UnboundResult))
      else
        match body
        case None => Verdict([], Some(NotJson))
        case Some(j) =>
          if !Truthy(j) then Verdict([ApiError], None)
          else
            match Subscript(j, "json")
            case None => Verdict([], Some(BadEcho))
            case Some(echo) =>
              match Subscript(echo, "incident")
              case None => Verdict([], Some(BadEcho))
              case Some(info) =>
                match Contains(info, "theme")
                case None => Verdict([], Some(BadEcho))
                case Some(hasTheme) =>
                  if !hasTheme then Verdict([ApiError], None)
                  else
                    match Contains(info, "description")
                    case None => Verdict([], Some(BadEcho))
                    case Some(hasDescription) =>
                      if hasDescription then Verdict([ApiSent], None) else Verdict([ApiError], None)
  }

  /** An endpoint that echoes the posted JSON under `json` confirms every
      report. */
  lemma EchoOfPayloadConfirms(r: Report)
    ensures ApiVerdict(Response(200, Some(Object(map["json" := Payload(r)])))) == Verdict([ApiSent], None)
  {
    var body := Object(map["json" := Payload(r)]);
    assert EchoConfirms(body);
  }

  /** The echo is read under `json` first: an answer that carries the
      report directly under `incident` makes the subscript raise. */
  lemma EchoWithoutJsonKeyRaises(inner: Json)
    ensures ApiVerdict(Response(200, Some(Object(map["incident" := inner])))) == Verdict([], Some(BadEcho))
  {
    var body := Object(map["incident" := inner]);
    assert "incident" in body.fields;
    assert Truthy(body);
  }

  // ----------------------------------------------------------- SMTP branch

  /** The mail text `send_incident` builds: the prefix, then each field
      that is truthy. */
  function SmtpBody(r: Report): string
  {
    var t0 := SmtpPrefix;
    var t1 := if HasText(r.theme) then t0 + r.theme.value else t0;
    var t2 := if HasText(r.description) then t1 + r.description.value else t1;
    var t3 := if HasText(r.contact) then t2 + r.contact.value else t2;
    if HasText(r.file) then t3 + r.file.value else t3
  }

  /** The report fields in body order. */
  function Fields(r: Report): seq<Option<string>>
  {
    [r.theme, r.description, r.contact, r.file]
  }

  /** The texts of the truthy fields, in order. */
  function Present(xs: seq<Option<string>>): seq<string>
  {
    if xs == [] then []
    else (if HasText(xs[0]) then [xs[0].value] else []) + Present(xs[1..])
  }

  /** The strings joined with no separator. */
  function Concat(ss: seq<string>): string
  {
    if ss == [] then "" else ss[0] + Concat(ss[1..])
  }

  /** What one field contributes to the body. */
  function Piece(x: Option<string>): string
  {
    if HasText(x) then x.value else ""
  }

  lemma PresentCons(x: Option<string>, rest: seq<Option<string>>)
    ensures Concat(Present([x] + rest)) == Piece(x) + Concat(Present(rest))
  {
    assert ([x] + rest)[1..] == rest;
    var head := if HasText(x) then [x.value] else [];
    assert Present([x] + rest) == head + Present(rest);
    ConcatAppend(head, Present(rest));
    if HasText(x) {
      assert head[1..] == [];
    }
  }

  /** The SMTP body is the prefix followed by the non-empty fields in the
      order theme, description, contact, file, with no separators. */
  lemma SmtpBodyIsPrefixAndPresentFields(r: Report)
    ensures SmtpBody(r) == SmtpPrefix + Concat(Present(Fields(r)))
  {
    PresentFieldsArePieces(r);
    SmtpBodyPieces(r);
  }

  /** Joining the present fields is joining every field's piece. */
  lemma PresentFieldsArePieces(r: Report)
    ensures Concat(Present(Fields(r))) == Piece(r.theme) + (Piece(r.description) + (Piece(r.contact) + Piece(r.file)))
  {
    var t, d, c, f := r.theme, r.description, r.contact, r.file;
    assert Concat(Present([f])) == Piece(f) by {
      PresentCons(f, []);
      assert [f] + [] == [f];
      assert Piece(f) + "" == Piece(f);
    }
    assert Concat(Present([c, f])) == Piece(c) + Piece(f) by {
      PresentCons(c, [f]);
      assert [c] + [f] == [c, f];
    }
    assert Concat(Present([d, c, f])) == Piece(d) + (Piece(c) + Piece(f)) by {
      PresentCons(d, [c, f]);
      assert [d] + [c, f] == [d, c, f];
    }
    assert Fields(r) == [t] + [d, c, f];
    PresentCons(t, [d, c, f]);
  }

  /** Each `if field: text += field` appends that field's piece. */
  lemma SmtpBodyPieces(r: Report)
    ensures SmtpBody(r) == SmtpPrefix + Piece(r.theme) + Piece(r.description) + Piece(r.contact) + Piece(r.file)
  {
    var t0 := SmtpPrefix;
    var t1 := if HasText(r.theme) then t0 + r.theme.value else t0;
    var t2 := if HasText(r.description) then t1 + r.description.value else t1;
    var t3 := if HasText(r.contact) then t2 + r.contact.value else t2;
    var t4 := if HasText(r.file) then t3 + r.file.value else t3;
    AppendPiece(t0, r.theme);
    AppendPiece(t1, r.description);
    AppendPiece(t2, r.contact);
    AppendPiece(t3, r.file);
  }

  lemma AppendPiece(t: string, x: Option<string>)
    ensures (if HasText(x) then t + x.value else t) == t + Piece(x)
  {
    if !HasText(x) {
      assert t + "" == t;
    }
  }

  lemma {:induction false} ConcatAppend(a: seq<string>, b: seq<string>)
    ensures Concat(a + b) == Concat(a) + Concat(b)
    decreases |a|
  {
    if a == [] {
      assert a + b == b;
    } else {
      assert (a + b)[1..] == a[1..] + b;
      ConcatAppend(a[1..], b);
    }
  }

  /** With every field empty or absent the body is exactly the prefix. */
  lemma EmptyReportGivesBarePrefix(r: Report)
    requires !HasText(r.theme) && !HasText(r.description) && !HasText(r.contact) && !HasText(r.file)
    ensures SmtpBody(r) == SmtpPrefix
  {
  }

  /** Every character is in the ASCII range, so the `ascii` codec can
      encode the text. */
  predicate IsAscii(text: string)
  {
    forall i :: 0 <= i < |text| ==> text[i] as int < 128
  }

  /** The replies after the mail attempt: connect, then `sendmail`, which
      encodes the body before talking to the server about the mail; every
      exception is caught and answered with an error reply. */
  function SmtpReplies(body: string, smtp: SmtpOutcome): (rs: seq<Reply>)
    ensures |rs| <= 1
    ensures rs == [] <==> smtp.Sent? && IsAscii(body)
    ensures !IsAscii(body) && !smtp.ConnectFailure? ==> rs == [SmtpError(NotAscii)]
    ensures smtp.ConnectFailure? || (smtp.DeliveryFailure? && IsAscii(body)) ==>
              rs == [SmtpError(ServerError(smtp.detail))]
  {
    match smtp
    case ConnectFailure(d) => [SmtpError(ServerError(d))]
    case DeliveryFailure(d) => if IsAscii(body) then [SmtpError(ServerError(d))] else [SmtpError(NotAscii)]
    case Sent => if IsAscii(body) then [] else [SmtpError(NotAscii)]
  }

  /** Joining ASCII texts gives ASCII text. */
  lemma AsciiJoin(a: string, b: string)
    requires IsAscii(a) && IsAscii(b)
    ensures IsAscii(a + b)
  {
    forall i | 0 <= i < |a + b|
      ensures (a + b)[i] as int < 128
    {
      if i >= |a| {
        assert (a + b)[i] == b[i - |a|];
      }
    }
  }

  // -------------------------------------------------------------- dispatch

  /** `send_incident`: insert the incident first; if that raises nothing
      else happens. Then confirm the insert and take exactly one branch on
      the channel tag: POST the payload, mail the body, or neither. */
  function SendIncident(db: Db, user: UserId, report: Report, channel: Option<string>,
                        http: HttpOutcome, smtp: SmtpOutcome): (o: Outcome)
    ensures var stored := report.theme.Some? && report.description.Some?;
            && (!stored <==> o.raised.Some? && o.raised.value.StorageFailure?)
            && (!stored ==> o.db == db && o.replies == [] && o.delivery == NoDelivery)
            && (stored ==>
                  && o.db.users == db.users
                  && |o.db.incidents.rows| == |db.incidents.rows| + 1
                  && o.db.incidents.rows[..|db.incidents.rows|] == db.incidents.rows
                  && o.db.incidents.rows[|db.incidents.rows|].user == user
                  && Some(o.db.incidents.rows[|db.incidents.rows|].theme) == report.theme
                  && Some(o.db.incidents.rows[|db.incidents.rows|].description) == report.description
                  && o.db.incidents.rows[|db.incidents.rows|].contact == report.contact
                  && o.db.incidents.rows[|db.incidents.rows|].file == report.file
                  && 1 <= |o.replies| <= 2 && o.replies[0] == Registered)
            && (o.delivery.Post? <==> stored && channel == Some("api"))
            && (o.delivery.Mail? <==> stored && channel == Some("smtp"))
    ensures o.delivery.Post? ==> o.delivery.payload == Payload(report)
    ensures o.delivery.Post? ==> DecodeReport(o.delivery.payload) == Some(report)
    ensures o.delivery.Mail? ==> o.delivery.body == SmtpPrefix + Concat(Present(Fields(report)))
    ensures ApiSent in o.replies <==> o.delivery.Post? && Confirms(http)
    ensures report.theme.Some? && report.description.Some? && channel == Some("api") ==>
              o.replies == [Registered] + ApiVerdict(http).replies && o.raised == ApiVerdict(http).raised
    ensures o.raised.Some? && !o.raised.value.StorageFailure? ==> o.delivery.Post?
    ensures report.theme.Some? && report.description.Some? && channel != Some("api") && channel != Some("smtp") ==>
              o.replies == [Registered] && o.raised.None?
    ensures o.delivery.Mail? ==> o.replies == [Registered] + SmtpReplies(o.delivery.body, smtp)
    ensures o.delivery.Mail? ==> (o.replies == [Registered] <==> smtp.Sent? && IsAscii(o.delivery.body))
    ensures Valid(db) ==> Valid(o.db)
  {
    match RegisterIncident(db, user, report.theme, report.description, report.contact, report.file)
    case Err(e) => Outcome(db, [], NoDelivery, Some(StorageFailure(e)))
    case Ok(db') =>
      if channel == Some(ApiChannel) then
        var v := ApiVerdict(http);
        PayloadRoundTrip(report);
        Outcome(db', [Registered] + v.replies, Post(Payload(report)), v.raised)
      else if channel == Some(SmtpChannel) then
        SmtpBodyIsPrefixAndPresentFields(report);
        Outcome(db', [Registered] + SmtpReplies(SmtpBody(report), smtp), Mail(SmtpBody(report)), None)
      else
        Outcome(db', [Registered], NoDelivery, None)
  }

  /** For every stored report on the `api` channel, a non-200 answer leaves
      "registered" as the only reply: the handler raises on the unbound
      result instead of reporting an integration error. */
  lemma NonOkStatusGetsNoReply(db: Db, user: UserId, report: Report, status: int,
                               body: Option<Json>, smtp: SmtpOutcome)
    requires report.theme.Some? && report.description.Some?
    requires status != 200
    ensures var o := SendIncident(db, user, report, Some("api"), Response(status, body), smtp);
            && o.replies == [Registered]
            && o.raised == Some(UnboundResult)
            && |o.db.incidents.rows| == |db.incidents.rows| + 1
  {
    assert ApiVerdict(Response(status, body)) == Verdict([], Some(UnboundResult));
  }

  /** A theme with a character outside ASCII makes the mail body non-ASCII,
      so `sendmail` raises whenever the connection was made. */
  lemma NonAsciiThemeMailFails(db: Db, user: UserId, report: Report, smtp: SmtpOutcome, i: nat)
    requires report.theme.Some? && report.description.Some?
    requires i < |report.theme.value| && report.theme.value[i] as int >= 128
    requires !smtp.ConnectFailure?
    ensures SendIncident(db, user, report, Some("smtp"), TransportFailure, smtp).replies
            == [Registered, SmtpError(NotAscii)]
  {
    var body := SmtpBody(report);
    SmtpBodyPieces(report);
    var rest := Piece(report.description) + Piece(report.contact) + Piece(report.file);
    assert body == SmtpPrefix + report.theme.value + rest by {
      assert HasText(report.theme);
    }
    assert body[|SmtpPrefix| + i] == report.theme.value[i];
    assert !IsAscii(body);
  }
}
