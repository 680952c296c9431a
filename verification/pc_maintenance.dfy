/**
 * The desktop maintenance page: a contact form whose successful submissions
 * are kept, newest first, in a local message log mirrored in browser
 * storage under the key `argos_messages`, with export and clear actions.
 *
 * The pure part (`PageState` and the step functions) specifies the page;
 * the class `ContactPage` is the page itself, its fields updated in place
 * by the handlers, each proved to perform exactly its step.
 */
module ContactLog {
  import opened Wrappers
  import opened ContactForm

  /** One saved contact message. */
  datatype Message = Message(id: string, name: string, email: string, message: string, date: string)

  /** The text shown when a submit fails, whatever the cause. */
  const SendFailure := "Impossibile inviare il messaggio. Riprova più tardi."

  /** The file-name prefix of an export. */
  const BackupPrefix := "argos_backup_"

  /** The file-name suffix of an export. */
  const BackupSuffix := ".json"

  /**
   * Everything the page's logic reads and writes: the in-memory log, the
   * value stored under `argos_messages` (None when the key is absent), the
   * form and the flags.
   */
  datatype PageState = PageState(messages: seq<Message>, stored: Option<seq<Message>>, form: FormData, flags: Flags)

  /** Reading the log from storage: a missing key reads as the empty list. */
  function Load(stored: Option<seq<Message>>): seq<Message>
  {
    match stored
    case None => []
    case Some(saved) => saved
  }

  /** The in-memory log is what storage holds. */
  ghost predicate Synced(s: PageState)
  {
    s.messages == Load(s.stored)
  }

  /** The state right after the page mounted and its load effect ran. */
  function Mount(saved: Option<seq<Message>>): (s: PageState)
    ensures Synced(s) && s.stored == saved
    ensures saved == None ==> s.messages == []
    ensures saved != None ==> s.messages == saved.value
    ensures s.form == EmptyForm && s.flags == Idle
  {
    PageState(Load(saved), saved, EmptyForm, Idle)
  }

  /**
   * One run of the submit handler, given how its remote attempt ended,
   * whether storage accepts the write (`setItem` can throw, for instance
   * when the quota is exceeded), the fresh id and the formatted date. Only
   * when both succeed is a message built from the form, put in front of the
   * log and the whole log written back; any failure touches neither the log
   * nor storage, and shows the error.
   */
  function SubmitStep(s: PageState, outcome: RemoteOutcome, writeOk: bool, id: string, date: string): (t: PageState)
    ensures !t.flags.isSubmitting
    ensures outcome == Accepted && writeOk ==>
      && t.messages == [Message(id, s.form.name, s.form.email, s.form.message, date)] + s.messages
      && t.stored == Some(t.messages)
      && t.form == EmptyForm
      && t.flags.isSubmitted && t.flags.error == None
    ensures outcome != Accepted || !writeOk ==>
      && t.messages == s.messages && t.stored == s.stored && t.form == s.form
      && t.flags.isSubmitted == s.flags.isSubmitted && t.flags.error == Some(SendFailure)
  {
    var flags := Start(s.flags);
    if outcome == Accepted && writeOk then
      var newMessage := Message(id, s.form.name, s.form.email, s.form.message, date);
      var updated := [newMessage] + s.messages;
      PageState(updated, Some(updated), EmptyForm, Settle(flags, Accepted, SendFailure))
    else
      // a failed write throws inside the same `try` as a rejected response
      var failed := if outcome == Accepted then Rejected else outcome;
      PageState(s.messages, s.stored, s.form, Settle(flags, failed, SendFailure))
  }

  /** The clear action, given the user's answer to the confirmation dialog. */
  function ClearStep(s: PageState, confirmed: bool): (t: PageState)
    ensures confirmed ==> t.messages == [] && t.stored == None && Synced(t)
    ensures t.form == s.form && t.flags == s.flags
    ensures !confirmed ==> t == s
  {
    if confirmed then s.(messages := [], stored := None) else s
  }

  /** Clearing twice, with any answer the second time, is clearing once. */
  lemma ClearIdempotent(s: PageState, confirmed: bool)
    ensures ClearStep(ClearStep(s, true), confirmed) == ClearStep(s, true)
  {
  }

  /** The day part of an export file name: JavaScript's `slice(0, 10)` of the ISO date. */
  function DayPart(isoDate: string): (day: string)
    ensures |day| <= 10 && |day| <= |isoDate| && day == isoDate[..|day|]
    ensures |isoDate| >= 10 ==> |day| == 10
    ensures |isoDate| < 10 ==> day == isoDate
  {
    if |isoDate| <= 10 then isoDate else isoDate[..10]
  }

  /**
   * Reads the day back out of an export file name; the inverse of
   * `BackupFileName`, used only to state what a file name encodes.
   */
  ghost function BackupDay(fileName: string): Option<string>
  {
    var n := |fileName|;
    if n >= |BackupPrefix| + |BackupSuffix|
       && n - |BackupPrefix| - |BackupSuffix| <= 10
       && fileName[..|BackupPrefix|] == BackupPrefix
       && fileName[n - |BackupSuffix|..] == BackupSuffix
    then Some(fileName[|BackupPrefix|..n - |BackupSuffix|])
    else None
  }

  /** `argos_backup_<YYYY-MM-DD>.json` for an ISO date `YYYY-MM-DDT...`. */
  function BackupFileName(isoDate: string): (fileName: string)
    ensures |fileName| == |BackupPrefix| + |DayPart(isoDate)| + |BackupSuffix|
    ensures fileName[..|BackupPrefix|] == BackupPrefix
    ensures fileName[|fileName| - |BackupSuffix|..] == BackupSuffix
    ensures BackupDay(fileName) == Some(DayPart(isoDate))
  {
    var day := DayPart(isoDate);
    var fileName := BackupPrefix + day + BackupSuffix;
    assert fileName[..|BackupPrefix|] == BackupPrefix;
    assert fileName[|fileName| - |BackupSuffix|..] == BackupSuffix;
    assert fileName[|BackupPrefix|..|fileName| - |BackupSuffix|] == day;
    fileName
  }

  /** Every name that reads back as a day is the file name of that day. */
  lemma BackupDayNamesFile(fileName: string, day: string)
    requires BackupDay(fileName) == Some(day)
    ensures DayPart(day) == day
    ensures BackupFileName(day) == fileName
  {
  }

  /** A download offered by the export action: its file name and the log it serialises. */
  datatype Backup = Backup(fileName: string, document: seq<Message>)

  /** The user actions the page reacts to, with what the outside world supplies. */
  datatype Event =
    | Submit(outcome: RemoteOutcome, writeOk: bool, id: string, date: string)
    | Clear(confirmed: bool)
    | SendAnother
    | Edit(field: Field, value: string)

  /**
   * The effect of one action. A submit while `isSubmitting` is raised does
   * nothing: the submit button is disabled then. An action keeps the log
   * equal to what is stored when it was so before, and from a state with
   * no submit in flight it keeps no submit in flight.
   */
  function Apply(s: PageState, e: Event): (t: PageState)
    ensures !s.flags.isSubmitting ==> !t.flags.isSubmitting
    ensures Synced(s) ==> Synced(t)
  {
    match e
    case Submit(outcome, writeOk, id, date) =>
      if s.flags.isSubmitting then s else SubmitStep(s, outcome, writeOk, id, date)
    case Clear(confirmed) => ClearStep(s, confirmed)
    case SendAnother => s.(flags := Reopen(s.flags))
    case Edit(field, value) => s.(form := WithField(s.form, field, value))
  }

  /**
   * The state after a sequence of actions. From a state whose log equals
   * what is stored, the log still equals what is stored; from a state with
   * no submit in flight, no sequence leaves a submit in flight.
   */
  function Replay(s: PageState, events: seq<Event>): (t: PageState)
    ensures !s.flags.isSubmitting ==> !t.flags.isSubmitting
    ensures Synced(s) ==> Synced(t)
    decreases |events|
  {
    if events == [] then s else Replay(Apply(s, events[0]), events[1..])
  }

  /** An action that adds a message: a submit accepted remotely and saved. */
  predicate Commits(e: Event)
  {
    e.Submit? && e.outcome == Accepted && e.writeOk
  }

  /** The (id, date) of the submits in `events` that were accepted and saved, latest first. */
  function Committed(events: seq<Event>): seq<(string, string)>
    decreases |events|
  {
    if events == [] then []
    else Committed(events[1..]) + (if Commits(events[0]) then [(events[0].id, events[0].date)] else [])
  }

  /** The (id, date) of each message of a log, in log order. */
  function Stamps(log: seq<Message>): seq<(string, string)>
    decreases |log|
  {
    if log == [] then [] else [(log[0].id, log[0].date)] + Stamps(log[1..])
  }

  lemma {:induction false} StampsAppend(a: seq<Message>, b: seq<Message>)
    ensures Stamps(a + b) == Stamps(a) + Stamps(b)
    decreases |a|
  {
    if a == [] {
      assert a + b == b;
    } else {
      assert (a + b)[0] == a[0] && (a + b)[1..] == a[1..] + b;
      StampsAppend(a[1..], b);
    }
  }

  /** No action in `events` is a confirmed clear. */
  predicate NeverCleared(events: seq<Event>)
  {
    forall i :: 0 <= i < |events| ==> events[i] != Clear(true)
  }

  /**
   * From a state with no submit in flight, one action other than a
   * confirmed clear either adds its message in front or leaves the log alone.
   */
  lemma ApplyPrepends(s: PageState, e: Event)
    requires !s.flags.isSubmitting && e != Clear(true)
    ensures var log := Apply(s, e).messages;
      if Commits(e) then
        && |log| == |s.messages| + 1 && log[1..] == s.messages
        && log[0] == Message(e.id, s.form.name, s.form.email, s.form.message, e.date)
      else log == s.messages
  {
  }

  /**
   * Newest first: from a state with no submit in flight, over any sequence
   * of actions without a confirmed clear, the log is one message per
   * accepted and saved submit, carrying that submit's id and date, the
   * latest first, followed by the log it started from, untouched. Failed
   * submits add nothing.
   */
  lemma {:induction false} ReplayNewestFirst(s: PageState, events: seq<Event>)
    requires !s.flags.isSubmitting
    requires NeverCleared(events)
    ensures var log := Replay(s, events).messages;
      && |log| == |Committed(events)| + |s.messages|
      && log[|Committed(events)|..] == s.messages
      && Stamps(log) == Committed(events) + Stamps(s.messages)
    decreases |events|
  {
    if events != [] {
      var e, rest := events[0], events[1..];
      var s' := Apply(s, e);
      assert NeverCleared(rest) by {
        forall i | 0 <= i < |rest| ensures rest[i] != Clear(true) {
          assert rest[i] == events[i + 1];
        }
      }
      assert e != Clear(true) by {
        assert events[0] == e;
      }
      ApplyPrepends(s, e);
      ReplayNewestFirst(s', rest);
      var log := Replay(s, events).messages;
      assert log == Replay(s', rest).messages;
      var k := |Committed(rest)|;
      if Commits(e) {
        assert Committed(events) == Committed(rest) + [(e.id, e.date)];
        assert s'.messages == [s'.messages[0]] + s.messages;
        StampsAppend([s'.messages[0]], s.messages);
        assert log[k + 1..] == log[k..][1..];
      } else {
        assert Committed(events) == Committed(rest);
      }
    }
  }

  /** The page component: its state hooks as fields, its handlers as methods. */
  class ContactPage {
    var messages: seq<Message>
    var stored: Option<seq<Message>>
    var formData: FormData
    var isSubmitted: bool
    var isSubmitting: bool
    var error: Option<string>

    ghost function State(): PageState
      reads this
    {
      PageState(messages, stored, formData, Flags(isSubmitting, isSubmitted, error))
    }

    /** Between handler runs the log mirrors storage and no submit is in flight. */
    ghost predicate Valid()
      reads this
    {
      Synced(State()) && !isSubmitting
    }

    /** Mounting: the initial hook values, then the load effect. */
    constructor (saved: Option<seq<Message>>)
      ensures State() == Mount(saved)
      ensures Valid()
    {
      formData := EmptyForm;
      isSubmitted := false;
      isSubmitting := false;
      error := None;
      messages := [];
      stored := saved;
      new;
      messages := Load(stored);
    }

    /**
     * `handleSubmit`, with the remote attempt's outcome, the fresh id and
     * the formatted date supplied, and whether storage accepts the write.
     * Callable only while the button is enabled, that is, while no submit
     * is in flight.
     */
    method HandleSubmit(outcome: RemoteOutcome, writeOk: bool, id: string, date: string)
      requires Valid()
      modifies this
      ensures State() == SubmitStep(old(State()), outcome, writeOk, id, date)
      ensures Valid()
    {
      isSubmitting := true;
      error := None;
      var failed := outcome != Accepted;
      if !failed {
        var newMessage := Message(id, formData.name, formData.email, formData.message, date);
        var updated := [newMessage] + messages;
        if writeOk {
          stored := Some(updated);
          messages := updated;
          isSubmitted := true;
          formData := EmptyForm;
        } else {
          failed := true;
        }
      }
      if failed {
        error := Some(SendFailure);
      }
      isSubmitting := false;
    }

    /** `exportData`: nothing on an empty log, otherwise the whole log under a dated name. */
    method ExportData(isoDate: string) returns (download: Option<Backup>)
      ensures download == None <==> messages == []
      ensures download != None ==> download.value.document == messages
      ensures download != None ==> download.value.fileName == BackupFileName(isoDate)
      // restates, for the reader, what `BackupFileName` already promises
      ensures download != None ==> BackupDay(download.value.fileName) == Some(DayPart(isoDate))
    {
      if |messages| == 0 {
        return None;
      }
      download := Some(Backup(BackupFileName(isoDate), messages));
    }

    /** `clearDatabase`, with the user's answer to the confirmation dialog. */
    method ClearDatabase(confirmed: bool)
      requires Valid()
      modifies this
      ensures State() == ClearStep(old(State()), confirmed)
      ensures Valid()
    {
      if confirmed {
        stored := None;
        messages := [];
      }
    }

    /** The "send another" button of the success panel. */
    method SendAnother()
      requires Valid()
      modifies this
      ensures State() == Apply(old(State()), Event.SendAnother)
      ensures Valid()
    {
      isSubmitted := false;
    }

    /** The `onChange` handler of one form input. */
    method EditField(field: Field, value: string)
      requires Valid()
      modifies this
      ensures State() == Apply(old(State()), Edit(field, value))
      ensures Valid()
    {
      formData := WithField(formData, field, value);
    }
  }
}
