/** One chat with the bot: how aiogram routes each update to a handler of
    `handlers.py`, and what a sequence of updates does to the session and
    the database.

    Command handlers are registered before the state handlers and carry no
    state filter, so `/start`, `/api` and `/smtp` win in every state; the
    callback handler has no filter at all. A message in no state matches no
    handler and is dropped. */
module Conversation {
  import opened Basics
  import opened Store
  import opened JsonValues
  import opened Intake
  import opened Dispatch

  /** One update, carrying the outcomes of the I/O its handler would do. */
  datatype Event =
    | StartCommand(user: UserId, firstname: string, username: Option<string>, today: Date)
    | ApiCommand
    | SmtpCommand
    | Message(user: UserId, text: Option<string>, document: Option<Document>,
              http: HttpOutcome, smtp: SmtpOutcome)
    | SendButton(user: UserId, http: HttpOutcome, smtp: SmtpOutcome)

  datatype World = World(session: Session, db: Db)

  /** The world after one update, and the dispatch it caused, if any. */
  datatype Turn = Turn(world: World, dispatch: Option<Outcome>)

  /** Hand a completion to `send_incident`. */
  function Finish(w: World, c: Completion, user: UserId, http: HttpOutcome, smtp: SmtpOutcome): Turn
  {
    var o := SendIncident(w.db, user, c.report, c.channel, http, smtp);
    Turn(World(c.session, o.db), Some(o))
  }

  /** The effect of one update. */
  function Handle(w: World, e: Event): (t: Turn)
    // exactly the two completion paths dispatch, and they leave no state
    ensures t.dispatch.Some? <==>
              || e.SendButton?
              || (e.Message? && w.session.state == Some(File) && e.document.Some?)
    ensures t.dispatch.Some? ==> t.world.session.state.None? && t.world.db == t.dispatch.value.db
    ensures t.dispatch.None? && !e.StartCommand? ==> t.world.db == w.db
    // a message with no intake in progress changes nothing
    ensures e.Message? && w.session.state.None? ==> t == Turn(w, None)
    // each intake state is entered from its predecessor only
    ensures t.world.session.state == Some(Theme) && w.session.state != Some(Theme) ==>
              e.ApiCommand? || e.SmtpCommand?
    ensures t.world.session.state == Some(Description) && w.session.state != Some(Description) ==>
              w.session.state == Some(Theme) && e.Message?
    ensures t.world.session.state == Some(Contact) && w.session.state != Some(Contact) ==>
              w.session.state == Some(Description) && e.Message?
    ensures t.world.session.state == Some(File) && w.session.state != Some(File) ==>
              w.session.state == Some(Contact) && e.Message?
    // only `/api` and `/smtp` touch the channel tag
    ensures !(e.ApiCommand? || e.SmtpCommand?) ==>
              Get(t.world.session.data, FromCommandKey, None) == Get(w.session.data, FromCommandKey, None)
    // no handler ever removes a field
    ensures w.session.data.Keys <= t.world.session.data.Keys
    ensures Valid(w.db) ==> Valid(t.world.db)
  {
    match e
    case StartCommand(user, firstname, username, today) =>
      Turn(w.(db := RegisterUser(w.db, user, firstname, username, today)), None)
    case ApiCommand => Turn(w.(session := OnApi(w.session)), None)
    case SmtpCommand => Turn(w.(session := OnSmtp(w.session)), None)
    case Message(user, text, document, http, smtp) =>
      (match w.session.state
       case None => Turn(w, None)
       case Some(Theme) => Turn(w.(session := OnTheme(w.session, text)), None)
       case Some(Description) => Turn(w.(session := OnDescription(w.session, text)), None)
       case Some(Contact) => Turn(w.(session := OnContact(w.session, text)), None)
       case Some(File) =>
         match OnFile(w.session, document)
         case None => Turn(w, None)
         case Some(c) => Finish(w, c, user, http, smtp))
    case SendButton(user, http, smtp) => Finish(w, PrepareToSend(w.session), user, http, smtp)
  }

  /** The worlds a sequence of updates passes through, starting with `w`. */
  function Trace(w: World, evs: seq<Event>): (ws: seq<World>)
    ensures |ws| == |evs| + 1 && ws[0] == w
    ensures forall n :: 0 <= n < |evs| ==> ws[n + 1] == Handle(ws[n], evs[n]).world
    decreases |evs|
  {
    if evs == [] then [w]
    else [w] + Trace(Handle(w, evs[0]).world, evs[1..])
  }

  /** Update `n` of the trace moves the session into `step`. */
  predicate Enters(w: World, evs: seq<Event>, n: nat, step: Step)
  {
    && n < |evs|
    && Trace(w, evs)[n].session.state != Some(step)
    && Trace(w, evs)[n + 1].session.state == Some(step)
  }

  /** If the trace is not in `step` at first but is at position `m`, some
      update before `m` enters `step`. */
  lemma {:induction false} EntryBefore(w: World, evs: seq<Event>, step: Step, m: nat)
    requires m <= |evs|
    requires w.session.state != Some(step)
    requires Trace(w, evs)[m].session.state == Some(step)
    ensures exists n: nat :: n < m && Enters(w, evs, n, step)
    decreases m
  {
    var ws := Trace(w, evs);
    if ws[m - 1].session.state != Some(step) {
      assert Enters(w, evs, m - 1, step);
    } else {
      EntryBefore(w, evs, step, m - 1);
    }
  }

  /** From a session with no intake in progress, the `file` state is reached
      only by `/api` or `/smtp`, then a message in `theme`, a message in
      `description` and a message in `contact`, in that order. */
  lemma FileReachedOnlyInOrder(w: World, evs: seq<Event>, m: nat)
    requires w.session.state.None?
    requires m <= |evs| && Trace(w, evs)[m].session.state == Some(File)
    ensures exists a: nat, b: nat, c: nat, d: nat ::
              && a < b < c < d < m
              && Enters(w, evs, a, Theme) && Enters(w, evs, b, Description)
              && Enters(w, evs, c, Contact) && Enters(w, evs, d, File)
              && (evs[a].ApiCommand? || evs[a].SmtpCommand?)
              && evs[b].Message? && evs[c].Message? && evs[d].Message?
  {
    var ws := Trace(w, evs);
    EntryBefore(w, evs, File, m);
    var d: nat :| d < m && Enters(w, evs, d, File);
    assert ws[d + 1] == Handle(ws[d], evs[d]).world;
    EntryBefore(w, evs, Contact, d);
    var c: nat :| c < d && Enters(w, evs, c, Contact);
    assert ws[c + 1] == Handle(ws[c], evs[c]).world;
    EntryBefore(w, evs, Description, c);
    var b: nat :| b < c && Enters(w, evs, b, Description);
    assert ws[b + 1] == Handle(ws[b], evs[b]).world;
    EntryBefore(w, evs, Theme, b);
    var a: nat :| a < b && Enters(w, evs, a, Theme);
    assert ws[a + 1] == Handle(ws[a], evs[a]).world;
  }

  // ------------------------------------------------------- routing, per step

  /** In the text states a message is routed to that state's handler. */
  lemma MessageInTextState(w: World, user: UserId, text: Option<string>, doc: Option<Document>,
                           http: HttpOutcome, smtp: SmtpOutcome)
    requires w.session.state == Some(Theme) || w.session.state == Some(Description)
             || w.session.state == Some(Contact)
    ensures var step := w.session.state.value;
            Handle(w, Message(user, text, doc, http, smtp))
            == Turn(World(Session(Next(step), w.session.data[KeyOf(step) := text]), w.db), None)
  {
  }

  /** In the `file` state a message with a document completes the intake. */
  lemma DocumentInFileState(w: World, user: UserId, text: Option<string>, doc: Document,
                            http: HttpOutcome, smtp: SmtpOutcome)
    requires w.session.state == Some(File)
    ensures var c := OnFile(w.session, Some(doc)).value;
            var o := SendIncident(w.db, user, c.report, c.channel, http, smtp);
            Handle(w, Message(user, text, Some(doc), http, smtp)) == Turn(World(c.session, o.db), Some(o))
  {
  }

  /** The send button dispatches the session's fields on its channel. */
  lemma ButtonDispatches(w: World, user: UserId, http: HttpOutcome, smtp: SmtpOutcome)
    ensures var c := Complete(w.session);
            Handle(w, SendButton(user, http, smtp))
            == Turn(World(Session(None, w.session.data), SendIncident(w.db, user, c.report, c.channel, http, smtp).db),
                    Some(SendIncident(w.db, user, c.report, c.channel, http, smtp)))
  {
  }

  /** A start command and two text messages leave the session waiting for
      the contact, holding the channel, the theme and the description on
      top of whatever it held before. */
  lemma StartThemeDescription(w: World, cmd: Event, user: UserId, theme: Option<string>,
                              description: Option<string>, doc: Option<Document>,
                              http: HttpOutcome, smtp: SmtpOutcome)
    requires cmd.ApiCommand? || cmd.SmtpCommand?
    ensures var w1 := Handle(w, cmd).world;
            var w2 := Handle(w1, Message(user, theme, doc, http, smtp)).world;
            var w3 := Handle(w2, Message(user, description, doc, http, smtp)).world;
            var channel := if cmd.ApiCommand? then "api" else "smtp";
            w3 == World(Session(Some(Contact), w.session.data[FromCommandKey := Some(channel)]
                                                 [ThemeKey := theme][DescriptionKey := description]), w.db)
  {
    var w1 := Handle(w, cmd).world;
    MessageInTextState(w1, user, theme, doc, http, smtp);
    var w2 := Handle(w1, Message(user, theme, doc, http, smtp)).world;
    MessageInTextState(w2, user, description, doc, http, smtp);
  }

  /** On an empty database a stored dispatch creates the row with id 1. */
  lemma FirstIncidentOnEmptyDb(user: UserId, report: Report, channel: Option<string>,
                               http: HttpOutcome, smtp: SmtpOutcome)
    requires report.theme.Some? && report.description.Some?
    ensures SendIncident(EmptyDb, user, report, channel, http, smtp).db.incidents.rows
            == [IncidentRow(1, user, report.theme.value, report.description.value, report.contact, report.file)]
  {
  }

  // ------------------------------------------------------------- scenarios

  /** The endpoint's answer in the confirmed scenario: both keys echoed. */
  const ConfirmingEcho: Json :=
    Object(map["json" := Object(map["incident" := Object(map[
      "theme" := Str("Bad signal"), "description" := Str("Was better before")])])])

  /** The data after `/api`, a theme and a description on a fresh chat. */
  const ApiIntakeData: Data :=
    map[FromCommandKey := Some("api"), ThemeKey := Some("Bad signal"),
        DescriptionKey := Some("Was better before")]

  /** `/api`, a theme and a description on a fresh chat leave it waiting for
      the contact with exactly those three fields. */
  lemma ApiIntakeOnFreshChat(user: UserId)
    ensures
      var w1 := Handle(World(Fresh, EmptyDb), ApiCommand).world;
      var w2 := Handle(w1, Message(user, Some("Bad signal"), None, TransportFailure, Sent)).world;
      Handle(w2, Message(user, Some("Was better before"), None, TransportFailure, Sent)).world
      == World(Session(Some(Contact), ApiIntakeData), EmptyDb)
  {
    StartThemeDescription(World(Fresh, EmptyDb), ApiCommand, user, Some("Bad signal"),
                          Some("Was better before"), None, TransportFailure, Sent);
  }

  /** The send button pressed in that session, against an endpoint that
      answers 200 and echoes both keys: the incident is stored with `''` for
      the skipped contact and file, posted, and confirmed. */
  lemma ApiConfirmedFromContact(user: UserId)
    ensures
      var t := Handle(World(Session(Some(Contact), ApiIntakeData), EmptyDb),
                      SendButton(user, Response(200, Some(ConfirmingEcho)), Sent));
      && t.dispatch.Some?
      && t.dispatch.value.replies == [Registered, ApiSent]
      && t.dispatch.value.delivery == Post(Payload(Report(Some("Bad signal"), Some("Was better before"), Some(""), Some(""))))
      && t.world.db.incidents.rows == [IncidentRow(1, user, "Bad signal", "Was better before", Some(""), Some(""))]
      && t.world.session.state.None?
  {
    var w3 := World(Session(Some(Contact), ApiIntakeData), EmptyDb);
    var http := Response(200, Some(ConfirmingEcho));
    var report := Report(Some("Bad signal"), Some("Was better before"), Some(""), Some(""));
    assert Complete(w3.session).report == report && Complete(w3.session).channel == Some("api");
    assert Confirms(http) by {
      var inner := Object(map["theme" := Str("Bad signal"), "description" := Str("Was better before")]);
      assert Contains(inner, "theme") == Some(true);
      assert Contains(inner, "description") == Some(true);
    }
    ButtonDispatches(w3, user, http, Sent);
    var o := SendIncident(EmptyDb, user, report, Some("api"), http, Sent);
    assert o.replies == [Registered, ApiSent];
    assert o.delivery == Post(Payload(report));
    FirstIncidentOnEmptyDb(user, report, Some("api"), http, Sent);
  }

  /** `/api`, a theme, a description, then the send button; the endpoint
      answers 200 and echoes both keys. The missing contact and file are
      stored as `''`. */
  lemma ScenarioApiConfirmed(user: UserId)
    ensures
      var w1 := Handle(World(Fresh, EmptyDb), ApiCommand).world;
      var w2 := Handle(w1, Message(user, Some("Bad signal"), None, TransportFailure, Sent)).world;
      var w3 := Handle(w2, Message(user, Some("Was better before"), None, TransportFailure, Sent)).world;
      var t := Handle(w3, SendButton(user, Response(200, Some(ConfirmingEcho)), Sent));
      && t.dispatch.Some?
      && t.dispatch.value.replies == [Registered, ApiSent]
      && t.dispatch.value.delivery == Post(Payload(Report(Some("Bad signal"), Some("Was better before"), Some(""), Some(""))))
      && t.world.db.incidents.rows == [IncidentRow(1, user, "Bad signal", "Was better before", Some(""), Some(""))]
      && t.world.session.state.None?
  {
    ApiIntakeOnFreshChat(user);
    ApiConfirmedFromContact(user);
  }

  /** The same intake answered with status 500: the incident stays stored,
      `data_from_api` is unbound, and no reply follows the first. */
  lemma ScenarioApiServerError(user: UserId)
    ensures
      var w1 := Handle(World(Fresh, EmptyDb), ApiCommand).world;
      var w2 := Handle(w1, Message(user, Some("Bad signal"), None, TransportFailure, Sent)).world;
      var w3 := Handle(w2, Message(user, Some("Was better before"), None, TransportFailure, Sent)).world;
      var t := Handle(w3, SendButton(user, Response(500, None), Sent));
      && t.dispatch.Some?
      && t.dispatch.value.replies == [Registered]
      && t.dispatch.value.raised == Some(UnboundResult)
      && |t.world.db.incidents.rows| == 1
  {
  }

  /** The data after `/smtp`, a theme, a description and a contact on a
      fresh chat. */
  const SmtpIntakeData: Data :=
    map[FromCommandKey := Some("smtp"), ThemeKey := Some("T"),
        DescriptionKey := Some("D"), ContactKey := Some("c@x.com")]

  /** `/smtp` and three text messages on a fresh chat leave it waiting for
      the file with exactly those four fields. */
  lemma SmtpIntakeOnFreshChat(user: UserId)
    ensures
      var w1 := Handle(World(Fresh, EmptyDb), SmtpCommand).world;
      var w2 := Handle(w1, Message(user, Some("T"), None, TransportFailure, Sent)).world;
      var w3 := Handle(w2, Message(user, Some("D"), None, TransportFailure, Sent)).world;
      Handle(w3, Message(user, Some("c@x.com"), None, TransportFailure, Sent)).world
      == World(Session(Some(File), SmtpIntakeData), EmptyDb)
  {
    var w0 := World(Fresh, EmptyDb);
    StartThemeDescription(w0, SmtpCommand, user, Some("T"), Some("D"), None, TransportFailure, Sent);
    var w1 := Handle(w0, SmtpCommand).world;
    var w2 := Handle(w1, Message(user, Some("T"), None, TransportFailure, Sent)).world;
    var w3 := Handle(w2, Message(user, Some("D"), None, TransportFailure, Sent)).world;
    MessageInTextState(w3, user, Some("c@x.com"), None, TransportFailure, Sent);
  }

  /** A downloaded file sent in that session: one stored row and one mail
      whose body joins the four fields in order. */
  lemma SmtpFileFromFileState(user: UserId)
    ensures
      var t := Handle(World(Session(Some(File), SmtpIntakeData), EmptyDb),
                      Message(user, None, Some(Document("/data/log.txt", true)), TransportFailure, Sent));
      && t.dispatch.Some?
      && t.dispatch.value.delivery == Mail(SmtpPrefix + "T" + "D" + "c@x.com" + "/data/log.txt")
      && t.dispatch.value.replies == [Registered]
      && t.world.db.incidents.rows == [IncidentRow(1, user, "T", "D", Some("c@x.com"), Some("/data/log.txt"))]
  {
    var w4 := World(Session(Some(File), SmtpIntakeData), EmptyDb);
    var doc := Document("/data/log.txt", true);
    var r := Report(Some("T"), Some("D"), Some("c@x.com"), Some("/data/log.txt"));
    var c := OnFile(w4.session, Some(doc));
    assert c.Some? && c.value.report == r && c.value.channel == Some("smtp");
    DocumentInFileState(w4, user, None, doc, TransportFailure, Sent);
    var o := SendIncident(EmptyDb, user, r, Some("smtp"), TransportFailure, Sent);
    ScenarioSmtpBody();
    assert o.delivery == Mail(SmtpPrefix + "T" + "D" + "c@x.com" + "/data/log.txt");
    assert o.replies == [Registered];
    FirstIncidentOnEmptyDb(user, r, Some("smtp"), TransportFailure, Sent);
  }

  /** `/smtp` through every step, ending with a downloaded file: one mail
      whose body joins the four fields in order. */
  lemma ScenarioSmtpWithFile(user: UserId)
    ensures
      var w1 := Handle(World(Fresh, EmptyDb), SmtpCommand).world;
      var w2 := Handle(w1, Message(user, Some("T"), None, TransportFailure, Sent)).world;
      var w3 := Handle(w2, Message(user, Some("D"), None, TransportFailure, Sent)).world;
      var w4 := Handle(w3, Message(user, Some("c@x.com"), None, TransportFailure, Sent)).world;
      var t := Handle(w4, Message(user, None, Some(Document("/data/log.txt", true)), TransportFailure, Sent));
      && t.dispatch.Some?
      && t.dispatch.value.delivery == Mail(SmtpPrefix + "T" + "D" + "c@x.com" + "/data/log.txt")
      && t.dispatch.value.replies == [Registered]
      && t.world.db.incidents.rows == [IncidentRow(1, user, "T", "D", Some("c@x.com"), Some("/data/log.txt"))]
  {
    SmtpIntakeOnFreshChat(user);
    SmtpFileFromFileState(user);
  }

  lemma ScenarioSmtpBody()
    ensures SmtpBody(Report(Some("T"), Some("D"), Some("c@x.com"), Some("/data/log.txt")))
            == SmtpPrefix + "T" + "D" + "c@x.com" + "/data/log.txt"
    ensures IsAscii(SmtpPrefix + "T" + "D" + "c@x.com" + "/data/log.txt")
  {
    var r := Report(Some("T"), Some("D"), Some("c@x.com"), Some("/data/log.txt"));
    SmtpBodyPieces(r);
    assert Piece(r.theme) == "T" && Piece(r.description) == "D";
    assert Piece(r.contact) == "c@x.com" && Piece(r.file) == "/data/log.txt";
    assert IsAscii(SmtpPrefix) && IsAscii("T") && IsAscii("D");
    assert IsAscii("c@x.com") && IsAscii("/data/log.txt");
    AsciiJoin(SmtpPrefix, "T");
    AsciiJoin(SmtpPrefix + "T", "D");
    AsciiJoin(SmtpPrefix + "T" + "D", "c@x.com");
    AsciiJoin(SmtpPrefix + "T" + "D" + "c@x.com", "/data/log.txt");
  }

  // ------------------------------------------ behaviour of the code as written

  /** A new `/api` intake does not clear the previous one: a contact left
      from an earlier report is stored with the next one when the user
      skips the contact step. */
  lemma StaleContactCarriesOver(w: World, user: UserId, theme: string, description: string,
                                http: HttpOutcome, smtp: SmtpOutcome)
    requires ContactKey in w.session.data
    ensures
      var w1 := Handle(w, ApiCommand).world;
      var w2 := Handle(w1, Message(user, Some(theme), None, http, smtp)).world;
      var w3 := Handle(w2, Message(user, Some(description), None, http, smtp)).world;
      var t := Handle(w3, SendButton(user, http, smtp));
      && |t.world.db.incidents.rows| == |w.db.incidents.rows| + 1
      && t.world.db.incidents.rows[|w.db.incidents.rows|].contact == w.session.data[ContactKey]
  {
  }

  /** The send button works with no intake in progress: on a fresh chat it
      stores an incident with empty theme and description and delivers
      nothing, because no channel was chosen. */
  lemma SendButtonWithoutIntake(user: UserId, http: HttpOutcome, smtp: SmtpOutcome)
    ensures
      var t := Handle(World(Fresh, EmptyDb), SendButton(user, http, smtp));
      && t.dispatch == Some(Outcome(t.world.db, [Registered], NoDelivery, None))
      && t.world.db.incidents.rows == [IncidentRow(1, user, "", "", Some(""), Some(""))]
  {
  }

  /** Pressing the send button twice stores the same report twice. */
  lemma SendButtonTwiceStoresTwice(w: World, user: UserId, http: HttpOutcome, smtp: SmtpOutcome)
    requires Get(w.session.data, ThemeKey, Some("")).Some?
    requires Get(w.session.data, DescriptionKey, Some("")).Some?
    ensures
      var t1 := Handle(w, SendButton(user, http, smtp));
      var t2 := Handle(t1.world, SendButton(user, http, smtp));
      var n := |w.db.incidents.rows|;
      && |t2.world.db.incidents.rows| == n + 2
      && t2.world.db.incidents.rows[n].(id := 0) == t2.world.db.incidents.rows[n + 1].(id := 0)
  {
    var t1 := Handle(w, SendButton(user, http, smtp));
    var n := |w.db.incidents.rows|;
    var t2 := Handle(t1.world, SendButton(user, http, smtp));
    assert t2.world.db.incidents.rows[n] == t2.world.db.incidents.rows[..n + 1][n];
  }

  /** A message without text in the `theme` state stores `None`; the later
      insert violates NOT NULL, so the dispatch raises before any reply and
      leaves the database as it was. */
  lemma TextlessThemeFailsStorage(w: World, user: UserId, doc: Option<Document>,
                                  http: HttpOutcome, smtp: SmtpOutcome)
    requires w.session.state == Some(Theme)
    ensures
      var w1 := Handle(w, Message(user, None, doc, http, smtp)).world;
      var t := Handle(w1, SendButton(user, http, smtp));
      && t.dispatch.Some?
      && t.dispatch.value.raised == Some(StorageFailure(NotNull("theme")))
      && t.dispatch.value.replies == []
      && t.world.db == w.db
  {
  }
}
