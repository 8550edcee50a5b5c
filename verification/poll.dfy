/** One pass of `poll_sqs` over one received message: the parsed body, the
    records it holds, and the queue calls the code makes in answer. Each
    version differs in when it deletes the message and whether it sends it
    back for a later retry. The jobs themselves are the folds of
    `Lifecycle`; which stages complete for a key is a parameter. */
module Poll {
  import opened Wrappers
  import opened UrlDecode
  import opened Audio
  import opened Admission
  import opened Lifecycle

  /** One entry of `Records`: the `s3.object.key` it carries (`None` when
      `s3`, `object` or `key` is absent), or an entry on which reading the
      key raises: the entry, its `s3` value or its `object` value is present
      but not a JSON object (`null` included), or, where the key goes
      through `unquote_plus`, it is a non-empty value that is not a string. */
  datatype Record = Record(key: Option<string>) | NotAnObject

  /** The message body after `json.loads`, or a body that did not parse. */
  datatype Body = Malformed | Notification(event: Option<string>, records: seq<Record>)

  /** A received message: its raw text, sent back verbatim on retry, and
      the parsed body. */
  datatype Message = Message(raw: string, body: Body)

  /** `delete_message` of the received handle, or `send_message` of a body
      with a delay. */
  datatype Action = Delete | Send(body: string, delay: nat)

  const TestEvent := "s3:TestEvent"

  /** `DelaySeconds` of `main.py`. */
  const MainRetryDelay: nat := 30

  /** `DelaySeconds` of `cloud.py` and `local.py`. */
  const StreamRetryDelay: nat := 60

  /** `not object_key`: no key, or an empty one. */
  predicate Keyless(r: Record)
  {
    r.Record? && (r.key.None? || r.key.value == "")
  }

  /** A parsed body that every version deletes without looking at the
      records: an S3 test event, or no records. */
  predicate NothingToDo(b: Body)
  {
    b.Notification? && (b.event == Some(TestEvent) || b.records == [])
  }

  function Deletes(acts: seq<Action>): nat
  {
    if acts == [] then 0 else (if acts[0] == Delete then 1 else 0) + Deletes(acts[1..])
  }

  lemma {:induction false} DeletesConcat(a: seq<Action>, b: seq<Action>)
    ensures Deletes(a + b) == Deletes(a) + Deletes(b)
    decreases |a|
  {
    if a == [] {
      assert a + b == b;
    } else {
      assert (a + b)[1..] == a[1..] + b;
      DeletesConcat(a[1..], b);
    }
  }

  /** Every retry sends the received body back with the version's delay
      and is followed at once by a delete. */
  predicate RetriesAre(acts: seq<Action>, raw: string, delay: nat)
  {
    forall i :: 0 <= i < |acts| && acts[i].Send? ==>
      acts[i] == Send(raw, delay) && i + 1 < |acts| && acts[i + 1] == Delete
  }

  lemma RetriesConcat(a: seq<Action>, b: seq<Action>, raw: string, delay: nat)
    requires RetriesAre(a, raw, delay) && RetriesAre(b, raw, delay)
    ensures RetriesAre(a + b, raw, delay)
  {
    var ab := a + b;
    forall i | 0 <= i < |ab| && ab[i].Send?
      ensures ab[i] == Send(raw, delay) && i + 1 < |ab| && ab[i + 1] == Delete
    {
      if i < |a| {
        assert ab[i] == a[i] && ab[i + 1] == a[i + 1];
      } else {
        assert ab[i] == b[i - |a|] && ab[i + 1] == b[i + 1 - |a|];
      }
    }
  }

  // ------------------------------------------------------------- main.py

  /** The record loop of `main.py`: a keyless record is skipped, every
      other one goes to `download_object`, which deletes the message itself
      after the download. A `KeyError` ends the loop with no further call;
      any other exception, including a record that is not an object, sends
      the body back with a 30 s delay and deletes it, and the remaining
      records are abandoned. */
  function MainRecords(records: seq<Record>, raw: string, w: string -> World, keyError: string -> bool)
    : (acts: seq<Action>)
    ensures RetriesAre(acts, raw, MainRetryDelay)
    decreases |records|
  {
    if records == [] then []
    else match records[0]
      case NotAnObject => [Send(raw, MainRetryDelay), Delete]
      case Record(key) =>
        if key.None? || key.value == "" then MainRecords(records[1..], raw, w, keyError)
        else
          var job := MainDownload(key.value, w(key.value));
          var early := if Acked(job) then [Delete] else [];
          if !job.trace.raised then
            RetriesConcat(early, MainRecords(records[1..], raw, w, keyError), raw, MainRetryDelay);
            early + MainRecords(records[1..], raw, w, keyError)
          else if keyError(key.value) then early
          else
            RetriesConcat(early, [Send(raw, MainRetryDelay), Delete], raw, MainRetryDelay);
            early + [Send(raw, MainRetryDelay), Delete]
  }

  /** `poll_sqs` of `main.py` on one message. */
  function MainHandle(m: Message, w: string -> World, keyError: string -> bool): (acts: seq<Action>)
    ensures m.body.Malformed? || NothingToDo(m.body) ==> acts == [Delete]
    ensures RetriesAre(acts, m.raw, MainRetryDelay)
  {
    match m.body
    case Malformed => [Delete]
    case Notification(event, records) =>
      if event == Some(TestEvent) || records == [] then [Delete]
      else MainRecords(records, m.raw, w, keyError)
  }

  /** A message whose records all lack a key gets no queue call at all. */
  lemma {:induction false} MainAllKeyless(records: seq<Record>, raw: string, w: string -> World,
                                          keyError: string -> bool)
    requires forall i :: 0 <= i < |records| ==> Keyless(records[i])
    ensures MainRecords(records, raw, w, keyError) == []
    decreases |records|
  {
    if records != [] {
      MainAllKeyless(records[1..], raw, w, keyError);
    }
  }

  /** A non-audio key returns before any delete: the message is left
      alone. */
  lemma MainNonAudioUntouched(raw: string, event: Option<string>, key: string, w: string -> World,
                              keyError: string -> bool)
    requires event != Some(TestEvent) && key != ""
    requires !IsAudioFile(UnquotePlus(key))
    ensures MainHandle(Message(raw, Notification(event, [Record(Some(key))])), w, keyError) == []
  {
    var records := [Record(Some(key))];
    assert records[1..] == [];
    var job := MainDownload(key, w(key));
    assert job.trace == Trace([], false) && !Acked(job);
    assert MainRecords(records[1..], raw, w, keyError) == [];
  }

  /** A job that completes is acknowledged once, by the delete right after
      its download, and never sent back. */
  lemma MainSuccessAckedOnce(raw: string, event: Option<string>, key: string, w: string -> World,
                             keyError: string -> bool)
    requires event != Some(TestEvent) && key != "" && IsAudioFile(UnquotePlus(key))
    requires AllPass(MainStages, w(key))
    ensures MainHandle(Message(raw, Notification(event, [Record(Some(key))])), w, keyError) == [Delete]
  {
    var records := [Record(Some(key))];
    assert records[1..] == [];
    MainCompletes(key, w(key));
    var job := MainDownload(key, w(key));
    assert Acked(job) && !job.trace.raised;
    assert MainRecords(records[1..], raw, w, keyError) == [];
  }

  /** A file that the admission checks refuse has already been deleted and
      is then sent back for a retry 30 s later. */
  lemma MainRefusedRequeued(raw: string, event: Option<string>, key: string, w: string -> World,
                            keyError: string -> bool)
    requires event != Some(TestEvent) && key != "" && IsAudioFile(UnquotePlus(key))
    requires w(key).completes(MakeWorkDir) && w(key).completes(Download)
    requires Admit(w(key).size, w(key).free, w(key).probe) != Admitted
    requires !keyError(key)
    ensures MainHandle(Message(raw, Notification(event, [Record(Some(key))])), w, keyError)
         == [Delete, Send(raw, MainRetryDelay), Delete]
  {
    var records := [Record(Some(key))];
    MainAdmission(key, w(key));
    MainAckIffDownloaded(key, w(key));
  }

  /** A `KeyError` raised before the download finished leaves the message
      without any queue call. */
  lemma MainKeyErrorUntouched(raw: string, event: Option<string>, key: string, w: string -> World,
                              keyError: string -> bool)
    requires event != Some(TestEvent) && key != "" && IsAudioFile(UnquotePlus(key))
    requires !w(key).completes(Download) && keyError(key)
    ensures MainHandle(Message(raw, Notification(event, [Record(Some(key))])), w, keyError) == []
  {
    MainAckIffDownloaded(key, w(key));
    MainCleanup(key, w(key));
    assert MainStages[1] == Download;
  }

  /** Once a job raises, the records after it are never looked at. */
  lemma MainStopsAtRaise(r: Record, rest1: seq<Record>, rest2: seq<Record>, raw: string,
                         w: string -> World, keyError: string -> bool)
    requires r.Record? && !Keyless(r)
    requires MainDownload(r.key.value, w(r.key.value)).trace.raised
    ensures MainRecords([r] + rest1, raw, w, keyError) == MainRecords([r] + rest2, raw, w, keyError)
  {
    assert ([r] + rest1)[0] == r && ([r] + rest2)[0] == r;
  }

  // ---------------------------------------------------- cloud.py, local.py

  /** The record loop of `cloud.py` and `local.py`: a keyless record is
      skipped; the key is decoded; a non-audio key is deleted; a job that
      returns True is deleted; one that returns False is sent back with a
      60 s delay and then deleted. A record that is not an object raises,
      and the exception ends the message with no further call. */
  function StreamRecords(records: seq<Record>, raw: string, succeeds: string -> bool): (acts: seq<Action>)
    ensures RetriesAre(acts, raw, StreamRetryDelay)
    decreases |records|
  {
    if records == [] then []
    else match records[0]
      case NotAnObject => []
      case Record(key) =>
        var rest := StreamRecords(records[1..], raw, succeeds);
        if key.None? || key.value == "" then rest
        else
          var k := UnquotePlus(key.value);
          var here := if !IsAudioFile(k) || succeeds(k) then [Delete] else [Send(raw, StreamRetryDelay), Delete];
          RetriesConcat(here, rest, raw, StreamRetryDelay);
          here + rest
  }

  /** `poll_sqs` of `cloud.py` and `local.py` on one message, given what
      `process_audio` returns for each decoded key. */
  function StreamHandle(m: Message, succeeds: string -> bool): (acts: seq<Action>)
    ensures m.body.Malformed? || NothingToDo(m.body) ==> acts == [Delete]
    ensures RetriesAre(acts, m.raw, StreamRetryDelay)
  {
    match m.body
    case Malformed => [Delete]
    case Notification(event, records) =>
      if event == Some(TestEvent) || records == [] then [Delete]
      else StreamRecords(records, m.raw, succeeds)
  }

  function CloudHandle(m: Message, w: string -> World): seq<Action>
  {
    StreamHandle(m, k => Process(CloudStages, w(k)).result)
  }

  function LocalHandle(m: Message, w: string -> World): seq<Action>
  {
    StreamHandle(m, k => Process(LocalStages, w(k)).result)
  }

  /** Records with a key, counted up to the first one that is not an
      object. */
  function Keyed(records: seq<Record>): nat
  {
    if records == [] || records[0].NotAnObject? then 0
    else (if Keyless(records[0]) then 0 else 1) + Keyed(records[1..])
  }

  /** Every record with a key is deleted exactly once, whatever its job
      returned. */
  lemma {:induction false} StreamOneDeletePerKey(records: seq<Record>, raw: string, succeeds: string -> bool)
    ensures Deletes(StreamRecords(records, raw, succeeds)) == Keyed(records)
    decreases |records|
  {
    if records != [] && records[0].Record? {
      var rest := StreamRecords(records[1..], raw, succeeds);
      StreamOneDeletePerKey(records[1..], raw, succeeds);
      if !Keyless(records[0]) {
        var k := UnquotePlus(records[0].key.value);
        var here := if !IsAudioFile(k) || succeeds(k) then [Delete] else [Send(raw, StreamRetryDelay), Delete];
        DeletesConcat(here, rest);
        if here == [Delete] {
          assert here[1..] == [];
        } else {
          assert here[1..] == [Delete] && here[1..][1..] == [];
        }
      }
    }
  }

  /** On one keyed record: a success or a non-audio key gets exactly one
      delete; a failure is sent back with a 60 s delay and then deleted. */
  lemma StreamOneRecord(raw: string, event: Option<string>, key: string, succeeds: string -> bool)
    requires event != Some(TestEvent) && key != ""
    ensures var acts := StreamHandle(Message(raw, Notification(event, [Record(Some(key))])), succeeds);
      var k := UnquotePlus(key);
      (!IsAudioFile(k) || succeeds(k) ==> acts == [Delete])
      && (IsAudioFile(k) && !succeeds(k) ==> acts == [Send(raw, StreamRetryDelay), Delete])
  {
    var records := [Record(Some(key))];
    assert records[1..] == [];
    assert StreamRecords(records[1..], raw, succeeds) == [];
  }

  /** A record that is not an object raises inside the `try`: nothing more
      is done for the message. */
  lemma StreamBadRecordUntouched(raw: string, event: Option<string>, rest: seq<Record>, succeeds: string -> bool)
    requires event != Some(TestEvent)
    ensures StreamHandle(Message(raw, Notification(event, [NotAnObject] + rest)), succeeds) == []
  {
  }

  /** `cloud.py` deletes a message whose job completed, and sends back one
      whose file the admission checks refused. */
  lemma CloudOutcome(raw: string, event: Option<string>, key: string, w: string -> World)
    requires event != Some(TestEvent) && key != "" && IsAudioFile(UnquotePlus(key))
    ensures var k := UnquotePlus(key);
      var acts := CloudHandle(Message(raw, Notification(event, [Record(Some(key))])), w);
      (AllPass(CloudStages, w(k)) ==> acts == [Delete])
      && (w(k).completes(Download) && Admit(w(k).size, w(k).free, w(k).probe) != Admitted
          ==> acts == [Send(raw, StreamRetryDelay), Delete])
  {
    var k := UnquotePlus(key);
    StreamOneRecord(raw, event, key, k' => Process(CloudStages, w(k')).result);
    if w(k).completes(Download) && Admit(w(k).size, w(k).free, w(k).probe) != Admitted {
      CloudAdmission(w(k));
    }
  }

  /** `local.py` deletes exactly the messages whose job completed every
      stage, and sends the others back. */
  lemma LocalOutcome(raw: string, event: Option<string>, key: string, w: string -> World)
    requires event != Some(TestEvent) && key != "" && IsAudioFile(UnquotePlus(key))
    ensures var acts := LocalHandle(Message(raw, Notification(event, [Record(Some(key))])), w);
      (acts == [Delete] <==> AllPass(LocalStages, w(UnquotePlus(key))))
      && (acts != [Delete] ==> acts == [Send(raw, StreamRetryDelay), Delete])
  {
    StreamOneRecord(raw, event, key, k' => Process(LocalStages, w(k')).result);
  }

  // -------------------------------------------------------------- run.py

  /** What `run.py` does with a decoded key: delete an empty or non-audio
      key, run the job and delete on True, and leave the message for
      redelivery on False. */
  function RunDecide(k: string, w: string -> World): seq<Action>
  {
    if k == "" || !IsAudioFile(k) then [Delete]
    else if RunProcess(k, w(k)).result then [Delete]
    else []
  }

  /** `poll_sqs` of `run.py` as written: only the first record is read, a
      body that does not parse raises inside the `try` and is left, and a
      record without a key makes `unquote_plus(None)` raise, so it is left
      as well. */
  function RunHandleAsWritten(m: Message, w: string -> World): (acts: seq<Action>)
    ensures NothingToDo(m.body) ==> acts == [Delete]
    ensures acts == [] || acts == [Delete]
  {
    match m.body
    case Malformed => []
    case Notification(event, records) =>
      if event == Some(TestEvent) || records == [] then [Delete]
      else match records[0]
        case NotAnObject => []
        case Record(key) => if key.None? then [] else RunDecide(UnquotePlus(key.value), w)
  }

  /** `poll_sqs` of `run.py` with a missing key treated as the empty key the
      `if not s3_key` test is there to catch. */
  function RunHandle(m: Message, w: string -> World): (acts: seq<Action>)
    ensures acts == [] || acts == [Delete]
  {
    match m.body
    case Malformed => []
    case Notification(event, records) =>
      if event == Some(TestEvent) || records == [] then [Delete]
      else match records[0]
        case NotAnObject => []
        case Record(key) => RunDecide(UnquotePlus(key.GetOr("")), w)
  }

  /** `run.py` never sends a message back: a failure is left for the
      queue's own redelivery. */
  lemma RunNeverRequeues(m: Message, w: string -> World)
    ensures forall i :: 0 <= i < |RunHandle(m, w)| ==> RunHandle(m, w)[i] == Delete
    ensures forall i :: 0 <= i < |RunHandleAsWritten(m, w)| ==> RunHandleAsWritten(m, w)[i] == Delete
  {
  }

  /** When the message is deleted: a test event or no records, or a first
      record whose key is missing, empty or not audio, or whose job
      returned True. A body that does not parse is never deleted. */
  lemma RunAckIff(m: Message, w: string -> World)
    ensures RunHandle(m, w) == [Delete] <==>
      NothingToDo(m.body)
      || (m.body.Notification? && m.body.records != [] && m.body.records[0].Record?
          && var k := UnquotePlus(m.body.records[0].key.GetOr(""));
             k == "" || !IsAudioFile(k) || RunProcess(k, w(k)).result)
  {
  }

  /** Only the first record is read. */
  lemma RunFirstRecordOnly(raw: string, event: Option<string>, r: Record, rest: seq<Record>, w: string -> World)
    ensures RunHandle(Message(raw, Notification(event, [r] + rest)), w)
         == RunHandle(Message(raw, Notification(event, [r])), w)
  {
  }

  /** A failed database update or vector upsert does not stop the delete. */
  lemma RunAdvisoryAck(m: Message, w1: string -> World, w2: string -> World)
    requires forall k, s :: !Advisory(s) ==> (w1(k).completes(s) <==> w2(k).completes(s))
    requires forall k :: w1(k).size == w2(k).size && w1(k).free == w2(k).free && w1(k).probe == w2(k).probe
    ensures RunHandle(m, w1) == RunHandle(m, w2)
  {
    if m.body.Notification? && m.body.records != [] && m.body.records[0].Record? {
      var k := UnquotePlus(m.body.records[0].key.GetOr(""));
      RunAdvisoryIrrelevant(k, w1(k), w2(k));
    }
  }

  /** As written, a first record without a key is never deleted, and is
      received again on every redelivery. */
  lemma RunKeylessNeverAcked(raw: string, w: string -> World)
    ensures RunHandleAsWritten(Message(raw, Notification(None, [Record(None)])), w) == []
  {
  }

  /** Corrected, it is deleted like a record with an empty key. */
  lemma RunKeylessAcked(raw: string, event: Option<string>, rest: seq<Record>, w: string -> World)
    requires event != Some(TestEvent)
    ensures RunHandle(Message(raw, Notification(event, [Record(None)] + rest)), w) == [Delete]
  {
  }

  /** The two agree on every message whose first record has a key. */
  lemma RunCorrectionOnlyKeyless(m: Message, w: string -> World)
    requires !(m.body.Notification? && !NothingToDo(m.body) && m.body.records[0] == Record(None))
    ensures RunHandle(m, w) == RunHandleAsWritten(m, w)
  {
  }
}
