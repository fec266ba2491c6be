/** The incident-intake state machine of `handlers.py`.

    A session is aiogram's FSM context for one chat: the current state of
    the `Incident` states group (or none) and the data dict. The command
    and text handlers merge one key each, `incident_file` merges the path
    only when a file exists there, and `prepare_to_send` merges none.
    Nothing here ever removes a key. */
module Intake {
  import opened Basics

  /** The states of the `Incident` states group. */
  datatype Step = Theme | Description | Contact | File

  /** The FSM data dict. Values are strings, or `None` where a handler
      stored `msg.text` of a message that carried no text. */
  type Data = map<string, Option<string>>

  datatype Session = Session(state: Option<Step>, data: Data)

  const FromCommandKey: string := "from_command"
  const ThemeKey: string := "incident_theme"
  const DescriptionKey: string := "incident_description"
  const ContactKey: string := "incident_contact"
  const FileKey: string := "incident_file"

  const ApiChannel: string := "api"
  const SmtpChannel: string := "smtp"

  /** A chat the bot has not seen yet: no state, no data. */
  const Fresh: Session := Session(None, map[])

  /** The four report fields as `send_incident` receives them. */
  datatype Report = Report(theme: Option<string>, description: Option<string>,
                           contact: Option<string>, file: Option<string>)

  /** What a completion step hands to `send_incident`: the session after the
      state was cleared, the report, and the channel tag. */
  datatype Completion = Completion(session: Session, report: Report, channel: Option<string>)

  /** A document attached to a message, after `bot.download`: the absolute
      path it was written to and whether that path is now a file. */
  datatype Document = Document(path: string, isFile: bool)

  /** `d'` is `d` merged with exactly the one entry `key: v`. */
  predicate MergesOne(d: Data, d': Data, key: string, v: Option<string>)
  {
    && d'.Keys == d.Keys + {key}
    && d'[key] == v
    && forall k :: k in d && k != key ==> d'[k] == d[k]
  }

  /** `state.update_data(key=v)` followed by `state.set_state(next)`. */
  function Record(s: Session, key: string, v: Option<string>, next: Option<Step>): (r: Session)
    ensures r.state == next
    ensures MergesOne(s.data, r.data, key, v)
  {
    Session(next, s.data[key := v])
  }

  /** `/api`: tags the channel and asks for the theme. Earlier fields stay. */
  function OnApi(s: Session): (r: Session)
    ensures r.state == Some(Theme)
    ensures MergesOne(s.data, r.data, FromCommandKey, Some("api"))
  {
    Record(s, FromCommandKey, Some(ApiChannel), Some(Theme))
  }

  /** `/smtp`: tags the channel and asks for the theme. Earlier fields stay. */
  function OnSmtp(s: Session): (r: Session)
    ensures r.state == Some(Theme)
    ensures MergesOne(s.data, r.data, FromCommandKey, Some("smtp"))
  {
    Record(s, FromCommandKey, Some(SmtpChannel), Some(Theme))
  }

  /** `incident_theme`: records the message text as the theme. */
  function OnTheme(s: Session, text: Option<string>): (r: Session)
    ensures r.state == Some(Description)
    ensures MergesOne(s.data, r.data, ThemeKey, text)
  {
    Record(s, ThemeKey, text, Some(Description))
  }

  /** `incident_description`: records the message text as the description. */
  function OnDescription(s: Session, text: Option<string>): (r: Session)
    ensures r.state == Some(Contact)
    ensures MergesOne(s.data, r.data, DescriptionKey, text)
  {
    Record(s, DescriptionKey, text, Some(Contact))
  }

  /** `incident_contact`: records the message text as the contact. */
  function OnContact(s: Session, text: Option<string>): (r: Session)
    ensures r.state == Some(File)
    ensures MergesOne(s.data, r.data, ContactKey, text)
  {
    Record(s, ContactKey, text, Some(File))
  }

  /** The successor of each intake state; `File` completes. */
  function Next(step: Step): Option<Step>
  {
    match step
    case Theme => Some(Description)
    case Description => Some(Contact)
    case Contact => Some(File)
    case File => None
  }

  /** The data key each text step writes. */
  function KeyOf(step: Step): string
  {
    match step
    case Theme => ThemeKey
    case Description => DescriptionKey
    case Contact => ContactKey
    case File => FileKey
  }

  /** The three text steps each write their own key and move one state on. */
  lemma TextStepsAdvanceByOne(s: Session, text: Option<string>)
    ensures OnTheme(s, text).state == Next(Theme)
    ensures OnDescription(s, text).state == Next(Description)
    ensures OnContact(s, text).state == Next(Contact)
    ensures OnTheme(s, text).data == s.data[KeyOf(Theme) := text]
    ensures OnDescription(s, text).data == s.data[KeyOf(Description) := text]
    ensures OnContact(s, text).data == s.data[KeyOf(Contact) := text]
  {
  }

  /** The shared tail of both completion handlers: clear the state, read
      every field with `''` as default, and keep the data as it is. */
  function Complete(s: Session): (c: Completion)
    ensures c.session == Session(None, s.data)
    ensures ThemeKey in s.data ==> c.report.theme == s.data[ThemeKey]
    ensures ThemeKey !in s.data ==> c.report.theme == Some("")
    ensures DescriptionKey in s.data ==> c.report.description == s.data[DescriptionKey]
    ensures DescriptionKey !in s.data ==> c.report.description == Some("")
    ensures ContactKey in s.data ==> c.report.contact == s.data[ContactKey]
    ensures ContactKey !in s.data ==> c.report.contact == Some("")
    ensures FileKey in s.data ==> c.report.file == s.data[FileKey]
    ensures FileKey !in s.data ==> c.report.file == Some("")
    ensures FromCommandKey in s.data ==> c.channel == s.data[FromCommandKey]
    ensures FromCommandKey !in s.data ==> c.channel == Some("")
  {
    var d := s.data;
    Completion(
      Session(None, d),
      Report(Get(d, ThemeKey, Some("")), Get(d, DescriptionKey, Some("")),
             Get(d, ContactKey, Some("")), Get(d, FileKey, Some(""))),
      Get(d, FromCommandKey, Some("")))
  }

  /** `incident_file`: a message without a document raises before anything
      changes (`None`). Otherwise the path is recorded only if the download
      left a file there, and the report is completed. */
  function OnFile(s: Session, doc: Option<Document>): (r: Option<Completion>)
    ensures r.Some? <==> doc.Some?
    ensures r.Some? ==> r.value.session.state.None?
    ensures r.Some? && doc.value.isFile ==>
              && r.value.report.file == Some(doc.value.path)
              && MergesOne(s.data, r.value.session.data, FileKey, Some(doc.value.path))
    ensures r.Some? && !doc.value.isFile ==>
              && r.value.session.data == s.data
              && r.value.report.file == (if FileKey in s.data then s.data[FileKey] else Some(""))
    ensures r.Some? ==>
              && r.value.channel == Complete(s).channel
              && r.value.report.theme == Complete(s).report.theme
              && r.value.report.description == Complete(s).report.description
              && r.value.report.contact == Complete(s).report.contact
  {
    match doc
    case None => None
    case Some(d) =>
      var data := if d.isFile then s.data[FileKey := Some(d.path)] else s.data;
      Some(Complete(Session(s.state, data)))
  }

  /** `prepare_to_send`: the send button completes from whatever state the
      session is in, with the fields gathered so far. */
  function PrepareToSend(s: Session): (c: Completion)
    ensures c.session.state.None? && c.session.data == s.data
    ensures c.report.theme == (if ThemeKey in s.data then s.data[ThemeKey] else Some(""))
    ensures c.report.description == (if DescriptionKey in s.data then s.data[DescriptionKey] else Some(""))
    ensures c.report.contact == (if ContactKey in s.data then s.data[ContactKey] else Some(""))
    ensures c.report.file == (if FileKey in s.data then s.data[FileKey] else Some(""))
    ensures c.channel == (if FromCommandKey in s.data then s.data[FromCommandKey] else Some(""))
  {
    Complete(s)
  }

  /** A file message whose download left no file at the path completes
      exactly as the send button would in the same session. */
  lemma MissingFileCompletesLikeButton(s: Session, path: string)
    ensures OnFile(s, Some(Document(path, false))) == Some(PrepareToSend(s))
  {
  }
}
