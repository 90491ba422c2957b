/**
 * The server's WhatsApp batch sending: the request guards of
 * `send_whatsapp_batch`, the background job `process_whatsapp_batch` that
 * sends in batches of ten and keeps a job record in the store, and
 * `send_whatsapp_batch_api`, which builds one Cloud API request per contact
 * and records one result per contact. The HTTP client is the function
 * `post`; a reply is a status code with its body, or a raised exception.
 */
module Dispatch {
  import opened Text
  import opened Wrappers
  import opened Seqs
  import opened Store
  import opened RateLimit

  /** A contact as the client sends it; `None` is a missing key. */
  datatype Contact = Contact(id: Option<int>, cleanedPhone: Option<string>, phone: Option<string>, name: Option<string>)

  type Credentials = map<string, string>

  /** The JSON body of a Cloud API message. */
  datatype Payload =
    | TemplatePayload(to: string, templateName: string, languageCode: string, nameParameter: string)
    | TextPayload(to: string, body: string)

  /** One POST: its URL, its `Authorization` header and its JSON body. */
  datatype Request = Request(url: string, authorization: string, payload: Payload)

  /** What the HTTP client gives back: a response, or the text of the exception it raised. */
  datatype Reply =
    | Response(statusCode: int, text: string, messageId: Option<string>)
    | Raised(error: string)

  /** One entry of `results` (the timestamp is not modelled). */
  datatype ContactResult = ContactResult(
    contactId: Option<int>, phone: Option<string>, success: bool, messageId: Option<string>, error: Option<string>)

  /** `credentials.get(key, default)`. */
  function GetOr(creds: Credentials, key: string, default: string): string {
    if key in creds then creds[key] else default
  }

  /** `contact.get("cleanedPhone", contact.get("phone", ""))`. */
  function SourcePhone(c: Contact): string {
    if c.cleanedPhone.Some? then c.cleanedPhone.value else c.phone.GetOr("")
  }

  /** The `to` field: the phone with every `+` removed. */
  function DialNumber(c: Contact): string {
    ReplaceAll(SourcePhone(c), "+", "")
  }

  /** `template_name and template_name.strip() and template_name != 'hello_world'` (see `StripNonEmpty`). */
  predicate UseTemplate(templateName: string) {
    templateName != "" && HasNonBlank(templateName, true) && templateName != "hello_world"
  }

  /** The message body for a text payload: every `{name}` replaced by the contact's name. */
  function Personalized(message: string, c: Contact): string {
    ReplaceAll(message, "{name}", c.name.GetOr(""))
  }

  /** The payload sent to one contact. */
  function BuildPayload(c: Contact, message: string, creds: Credentials): (p: Payload)
    ensures p.TemplatePayload? <==> UseTemplate(GetOr(creds, "templateName", ""))
    ensures p.to == DialNumber(c)
  {
    var templateName := GetOr(creds, "templateName", "");
    if UseTemplate(templateName) then
      TemplatePayload(DialNumber(c), templateName, GetOr(creds, "languageCode", "pt_BR"), c.name.GetOr(""))
    else
      TextPayload(DialNumber(c), Personalized(message, c))
  }

  function MessagesUrl(phoneNumberId: string): string {
    "https://graph.facebook.com/v18.0/" + phoneNumberId + "/messages"
  }

  /** A failed result carrying the error text. */
  function FailureResult(c: Contact, error: string): ContactResult {
    ContactResult(c.id, c.cleanedPhone, false, None, Some(error))
  }

  /**
   * The result for one contact: a missing credential raises `KeyError`
   * (whose text is the quoted key), otherwise the request is posted and a
   * 200 answer is a success.
   */
  function SendOne(c: Contact, message: string, creds: Credentials, post: Request -> Reply): (r: ContactResult)
    ensures r.contactId == c.id && r.phone == c.cleanedPhone
    ensures r.success <==> r.error.None?
  {
    if "phoneNumberId" !in creds then FailureResult(c, "'phoneNumberId'")
    else if "accessToken" !in creds then FailureResult(c, "'accessToken'")
    else
      var request := Request(MessagesUrl(creds["phoneNumberId"]), "Bearer " + creds["accessToken"],
                             BuildPayload(c, message, creds));
      match post(request)
      case Raised(e) => FailureResult(c, e)
      case Response(code, text, messageId) =>
        if code == 200 then ContactResult(c.id, c.cleanedPhone, true, messageId, None)
        else FailureResult(c, text)
  }

  /** The results for a list of contacts, one per contact, in order. */
  function SendAll(cs: seq<Contact>, message: string, creds: Credentials, post: Request -> Reply): (rs: seq<ContactResult>)
    ensures |rs| == |cs|
    decreases |cs|
  {
    if cs == [] then []
    else SendAll(cs[..|cs| - 1], message, creds, post) + [SendOne(cs[|cs| - 1], message, creds, post)]
  }

  /** One result per contact, in contact order, each carrying that contact's id and cleaned phone. */
  lemma {:induction false} ResultsFollowContacts(cs: seq<Contact>, message: string, creds: Credentials, post: Request -> Reply)
    ensures var rs := SendAll(cs, message, creds, post);
      && |rs| == |cs|
      && forall k :: 0 <= k < |cs| ==>
           rs[k] == SendOne(cs[k], message, creds, post) && rs[k].contactId == cs[k].id && rs[k].phone == cs[k].cleanedPhone
    decreases |cs|
  {
    if cs != [] {
      var init := cs[..|cs| - 1];
      ResultsFollowContacts(init, message, creds, post);
      forall k | 0 <= k < |cs|
        ensures SendAll(cs, message, creds, post)[k] == SendOne(cs[k], message, creds, post)
      {
        if k < |cs| - 1 {
          assert cs[k] == init[k];
        }
      }
    }
  }

  lemma SendAllSnoc(cs: seq<Contact>, i: nat, message: string, creds: Credentials, post: Request -> Reply)
    requires i < |cs|
    ensures SendAll(cs[..i + 1], message, creds, post) == SendAll(cs[..i], message, creds, post) + [SendOne(cs[i], message, creds, post)]
  {
    assert cs[..i + 1][..i] == cs[..i];
  }

  /** The results for a prefix of the contacts are the prefix of the results. */
  lemma SendAllPrefix(cs: seq<Contact>, i: nat, message: string, creds: Credentials, post: Request -> Reply)
    requires i <= |cs|
    ensures SendAll(cs, message, creds, post)[..i] == SendAll(cs[..i], message, creds, post)
  {
    ResultsFollowContacts(cs, message, creds, post);
    ResultsFollowContacts(cs[..i], message, creds, post);
  }

  /** `send_whatsapp_batch_api(contacts, message, credentials)`. */
  method SendWhatsappBatchApi(contacts: seq<Contact>, message: string, creds: Credentials, post: Request -> Reply)
    returns (results: seq<ContactResult>)
    ensures results == SendAll(contacts, message, creds, post)
  {
    results := [];
    for i := 0 to |contacts|
      invariant results == SendAll(contacts[..i], message, creds, post)
    {
      var contact := contacts[i];
      var result: ContactResult;
      if "phoneNumberId" !in creds {
        result := FailureResult(contact, "'phoneNumberId'");
      } else if "accessToken" !in creds {
        result := FailureResult(contact, "'accessToken'");
      } else {
        var phone := ReplaceAll(SourcePhone(contact), "+", "");
        var payload := BuildPayload(contact, message, creds);
        var reply := post(Request(MessagesUrl(creds["phoneNumberId"]), "Bearer " + creds["accessToken"], payload));
        match reply
        case Raised(e) =>
          result := FailureResult(contact, e);
        case Response(code, text, messageId) =>
          if code == 200 {
            result := ContactResult(contact.id, contact.cleanedPhone, true, messageId, None);
          } else {
            result := FailureResult(contact, text);
          }
      }
      assert result == SendOne(contact, message, creds, post);
      SendAllSnoc(contacts, i, message, creds, post);
      results := results + [result];
    }
    assert contacts[..|contacts|] == contacts;
  }

  datatype JobStatus = Processing | Completed

  /** The JSON record kept under `job:{id}`. */
  datatype JobRecord = JobRecord(status: JobStatus, total: nat, completed: nat, failed: nat, results: seq<ContactResult>)

  predicate IsSuccess(r: ContactResult) { r.success }

  predicate IsFailure(r: ContactResult) { !r.success }

  /** The record written with the given status after `results` are known. */
  function Progress(status: JobStatus, total: nat, results: seq<ContactResult>): JobRecord {
    JobRecord(status, total, |Filter(results, IsSuccess)|, |Filter(results, IsFailure)|, results)
  }

  const BatchSize: nat := 10
  const JobTtl: nat := 3600

  function JobKey(jobId: string): string { "job:" + jobId }

  /** `min(i, n)`: where a slice starting or ending at `i` is clipped. */
  function Clip(i: nat, n: nat): nat { if i < n then i else n }

  /** Number of batches for `n` contacts: the ceiling of `n / 10`. */
  function NumBatches(n: nat): nat {
    if n == 0 then 0 else if n <= BatchSize then 1 else 1 + NumBatches(n - BatchSize)
  }

  /** The record written after batch `b` (counted from 0): the results of every contact sent so far. */
  function BatchRecord(key: string, contacts: seq<Contact>, message: string, creds: Credentials,
                       post: Request -> Reply, b: nat): (string, JobRecord) {
    (key, Progress(Processing, |contacts|, SendAll(contacts[..Clip(BatchSize * (b + 1), |contacts|)], message, creds, post)))
  }

  /** The records written after each of the first `count` batches. */
  function BatchWrites(key: string, contacts: seq<Contact>, message: string, creds: Credentials,
                       post: Request -> Reply, count: nat): (ws: seq<(string, JobRecord)>)
    ensures |ws| == count
  {
    if count == 0 then []
    else BatchWrites(key, contacts, message, creds, post, count - 1) + [BatchRecord(key, contacts, message, creds, post, count - 1)]
  }

  lemma {:induction false} BatchWritesAt(key: string, contacts: seq<Contact>, message: string, creds: Credentials,
                                         post: Request -> Reply, count: nat, b: nat)
    requires b < count
    ensures BatchWrites(key, contacts, message, creds, post, count)[b] == BatchRecord(key, contacts, message, creds, post, b)
    decreases count
  {
    if b < count - 1 {
      BatchWritesAt(key, contacts, message, creds, post, count - 1, b);
    }
  }

  /** Every record a job writes, in order: the initial one, one per batch, the final one. */
  function JobWrites(key: string, contacts: seq<Contact>, message: string, creds: Credentials,
                     post: Request -> Reply): seq<(string, JobRecord)> {
    [(key, Progress(Processing, |contacts|, []))]
    + BatchWrites(key, contacts, message, creds, post, NumBatches(|contacts|))
    + [(key, Progress(Completed, |contacts|, SendAll(contacts, message, creds, post)))]
  }

  /** The results of two consecutive slices are the results of their union. */
  lemma SendAllAppend(contacts: seq<Contact>, i: nat, j: nat, message: string, creds: Credentials, post: Request -> Reply)
    requires i <= j <= |contacts|
    ensures SendAll(contacts[..i], message, creds, post) + SendAll(contacts[i..j], message, creds, post)
         == SendAll(contacts[..j], message, creds, post)
  {
    ResultsFollowContacts(contacts[..i], message, creds, post);
    ResultsFollowContacts(contacts[i..j], message, creds, post);
    ResultsFollowContacts(contacts[..j], message, creds, post);
  }

  /** Counts the successes and failures and writes the job record with its time-to-live. */
  method SaveJob(store: RedisStore<JobRecord>, key: string, status: JobStatus, total: nat, results: seq<ContactResult>)
    modifies store
    ensures store.values == old(store.values)[key := Stored(Progress(status, total, results), store.now + JobTtl)]
    ensures store.writes == old(store.writes) + [(key, Progress(status, total, results))]
    ensures store.counters == old(store.counters) && store.now == old(store.now)
  {
    var completed := |Filter(results, IsSuccess)|;
    var failed := |Filter(results, IsFailure)|;
    store.SetEx(key, JobTtl, JobRecord(status, total, completed, failed, results));
  }

  /**
   * `process_whatsapp_batch`: sends slice after slice of ten contacts,
   * rewrites the job record after each batch, sleeps between batches (counted
   * in `sleeps`) and finally marks the job completed. Without a store nothing
   * is recorded.
   */
  method ProcessWhatsappBatch(store: RedisStore?<JobRecord>, jobId: string, contacts: seq<Contact>, message: string,
                              creds: Credentials, post: Request -> Reply)
    returns (results: seq<ContactResult>, sleeps: nat)
    modifies store
    ensures results == SendAll(contacts, message, creds, post)
    ensures sleeps == if contacts == [] then 0 else NumBatches(|contacts|) - 1
    ensures store != null ==>
      && store.writes == old(store.writes) + JobWrites(JobKey(jobId), contacts, message, creds, post)
      && store.values == old(store.values)[JobKey(jobId) := Stored(Progress(Completed, |contacts|, results), store.now + JobTtl)]
      && store.counters == old(store.counters) && store.now == old(store.now)
  {
    var key := JobKey(jobId);
    ghost var prefix: seq<(string, JobRecord)> := [];
    ghost var values0: map<string, Stored<JobRecord>> := map[];
    ghost var counters0: map<string, Counter> := map[];
    ghost var now0: nat := 0;
    if store != null {
      values0, counters0, now0 := store.values, store.counters, store.now;
      SaveJob(store, key, Processing, |contacts|, []);
      prefix := store.writes;
    }
    results, sleeps := RunBatches(store, key, contacts, message, creds, post, prefix, values0, counters0, now0);
    if store != null {
      SaveJob(store, key, Completed, |contacts|, results);
      AppendFramed(old(store.writes), (key, Progress(Processing, |contacts|, [])),
                   BatchWrites(key, contacts, message, creds, post, NumBatches(|contacts|)),
                   (key, Progress(Completed, |contacts|, results)));
    }
  }

  /** The loop of `process_whatsapp_batch`: one slice of ten contacts per round, a sleep between rounds. */
  method RunBatches(store: RedisStore?<JobRecord>, key: string, contacts: seq<Contact>, message: string,
                    creds: Credentials, post: Request -> Reply,
                    ghost prefix: seq<(string, JobRecord)>, ghost values0: map<string, Stored<JobRecord>>,
                    ghost counters0: map<string, Counter>, ghost now0: nat)
    returns (results: seq<ContactResult>, sleeps: nat)
    requires store != null ==> JobTracked(store, prefix, values0, counters0, now0, key, contacts, message, creds, post, 0)
    modifies store
    ensures results == SendAll(contacts, message, creds, post)
    ensures sleeps == if contacts == [] then 0 else NumBatches(|contacts|) - 1
    ensures store != null ==>
      JobTracked(store, prefix, values0, counters0, now0, key, contacts, message, creds, post, NumBatches(|contacts|))
  {
    var total := |contacts|;
    results := [];
    sleeps := 0;
    var i := 0;
    var b := 0;
    while i < total
      invariant i == BatchSize * b && b <= NumBatches(total)
      invariant results == SendAll(contacts[..Clip(i, total)], message, creds, post)
      invariant sleeps == if b == 0 then 0 else if i < total then b else b - 1
      invariant store != null ==> JobTracked(store, prefix, values0, counters0, now0, key, contacts, message, creds, post, b)
      decreases total - i
    {
      NextBatch(total, b);
      results := Round(store, key, contacts, message, creds, post, b, results, prefix, values0, counters0, now0);
      if i + BatchSize < total {
        sleeps := sleeps + 1;
      }
      i := i + BatchSize;
      b := b + 1;
    }
    LastBatch(total, b);
    assert contacts[..Clip(i, total)] == contacts;
  }

  /** One round of the loop: send batch `b`, then record the results so far under the job's key. */
  method Round(store: RedisStore?<JobRecord>, key: string, contacts: seq<Contact>, message: string,
               creds: Credentials, post: Request -> Reply, b: nat, sent: seq<ContactResult>,
               ghost prefix: seq<(string, JobRecord)>, ghost values0: map<string, Stored<JobRecord>>,
               ghost counters0: map<string, Counter>, ghost now0: nat)
    returns (results: seq<ContactResult>)
    requires BatchSize * b < |contacts|
    requires sent == SendAll(contacts[..BatchSize * b], message, creds, post)
    requires store != null ==> JobTracked(store, prefix, values0, counters0, now0, key, contacts, message, creds, post, b)
    modifies store
    ensures results == SendAll(contacts[..Clip(BatchSize * (b + 1), |contacts|)], message, creds, post)
    ensures store != null ==> JobTracked(store, prefix, values0, counters0, now0, key, contacts, message, creds, post, b + 1)
  {
    var start := BatchSize * b;
    var end := Clip(start + BatchSize, |contacts|);
    var batchResults := SendWhatsappBatchApi(contacts[start..end], message, creds, post);
    SendAllAppend(contacts, start, end, message, creds, post);
    results := sent + batchResults;
    if store != null {
      RecordBatch(store, key, contacts, message, creds, post, b, results, prefix, values0, counters0, now0);
    }
  }

  /**
   * The store while a job runs: the job's writes so far after `prefix`, the
   * other values and the counters as they were, the clock unmoved.
   */
  ghost predicate JobTracked(store: RedisStore<JobRecord>, prefix: seq<(string, JobRecord)>,
                             values0: map<string, Stored<JobRecord>>, counters0: map<string, Counter>, now0: nat,
                             key: string, contacts: seq<Contact>, message: string, creds: Credentials,
                             post: Request -> Reply, b: nat)
    reads store
  {
    && store.writes == prefix + BatchWrites(key, contacts, message, creds, post, b)
    && key in store.values && store.values == values0[key := store.values[key]]
    && store.counters == counters0 && store.now == now0
  }

  /** The record after batch `b` is written, extending the batch writes by one. */
  method RecordBatch(store: RedisStore<JobRecord>, key: string, contacts: seq<Contact>, message: string,
                     creds: Credentials, post: Request -> Reply, b: nat, results: seq<ContactResult>,
                     ghost prefix: seq<(string, JobRecord)>, ghost values0: map<string, Stored<JobRecord>>,
                     ghost counters0: map<string, Counter>, ghost now0: nat)
    requires results == SendAll(contacts[..Clip(BatchSize * (b + 1), |contacts|)], message, creds, post)
    requires JobTracked(store, prefix, values0, counters0, now0, key, contacts, message, creds, post, b)
    modifies store
    ensures JobTracked(store, prefix, values0, counters0, now0, key, contacts, message, creds, post, b + 1)
    ensures store.values[key] == Stored(Progress(Processing, |contacts|, results), store.now + JobTtl)
  {
    SaveJob(store, key, Processing, |contacts|, results);
  }

  /** Ten batches cover `n` contacts and one fewer would not. */
  lemma {:induction false} NumBatchesBounds(n: nat)
    ensures n <= BatchSize * NumBatches(n)
    ensures n == 0 ==> NumBatches(n) == 0
    ensures n > 0 ==> NumBatches(n) >= 1 && BatchSize * (NumBatches(n) - 1) < n
  {
    if n > BatchSize {
      NumBatchesBounds(n - BatchSize);
    }
  }

  /** A batch that starts before the end is one of the `NumBatches` batches; a further one follows iff it starts before the end too. */
  lemma NextBatch(total: nat, b: nat)
    requires BatchSize * b < total
    ensures b < NumBatches(total)
    ensures BatchSize * (b + 1) < total <==> b + 1 < NumBatches(total)
  {
    NumBatchesBounds(total);
  }

  /** The loop stops after exactly `NumBatches` batches. */
  lemma LastBatch(total: nat, b: nat)
    requires total <= BatchSize * b && b <= NumBatches(total)
    requires b > 0 || total == 0
    ensures b == NumBatches(total)
  {
    NumBatchesBounds(total);
  }

  /** Every record a job writes is consistent: its counts add up to its results and its total is the contact count. */
  lemma {:induction false} ProgressConsistent(status: JobStatus, total: nat, results: seq<ContactResult>)
    ensures var r := Progress(status, total, results);
      r.completed + r.failed == |r.results| && r.total == total && r.status == status
  {
    FilterSplitsMultiset(results, IsSuccess, IsFailure);
  }

  /** The `w`-th record a job writes. */
  /** The job's writes, framed: the initial record, the batch records, the final record. */
  lemma JobWritesFramed(key: string, contacts: seq<Contact>, message: string, creds: Credentials, post: Request -> Reply)
    ensures |JobWrites(key, contacts, message, creds, post)| == NumBatches(|contacts|) + 2
    ensures JobWrites(key, contacts, message, creds, post)[0] == (key, Progress(Processing, |contacts|, []))
    ensures JobWrites(key, contacts, message, creds, post)[NumBatches(|contacts|) + 1]
         == (key, Progress(Completed, |contacts|, SendAll(contacts, message, creds, post)))
  {
    var n := NumBatches(|contacts|);
    var first := (key, Progress(Processing, |contacts|, []));
    var bw := BatchWrites(key, contacts, message, creds, post, n);
    var last := (key, Progress(Completed, |contacts|, SendAll(contacts, message, creds, post)));
    assert JobWrites(key, contacts, message, creds, post) == [first] + bw + [last];
    FramedAt(first, bw, last, 0);
    FramedAt(first, bw, last, n + 1);
  }

  /** Write `w`, for `0 < w <= batches`, is the record of batch `w - 1`. */
  lemma JobWriteOfBatch(key: string, contacts: seq<Contact>, message: string, creds: Credentials, post: Request -> Reply, w: nat)
    requires 0 < w <= NumBatches(|contacts|)
    ensures w < |JobWrites(key, contacts, message, creds, post)|
    ensures JobWrites(key, contacts, message, creds, post)[w] == BatchRecord(key, contacts, message, creds, post, w - 1)
  {
    var n := NumBatches(|contacts|);
    var first := (key, Progress(Processing, |contacts|, []));
    var bw := BatchWrites(key, contacts, message, creds, post, n);
    var last := (key, Progress(Completed, |contacts|, SendAll(contacts, message, creds, post)));
    assert JobWrites(key, contacts, message, creds, post) == [first] + bw + [last];
    FramedAt(first, bw, last, w);
    assert JobWrites(key, contacts, message, creds, post)[w] == bw[w - 1];
    BatchWritesAt(key, contacts, message, creds, post, n, w - 1);
  }

  lemma JobWriteAt(key: string, contacts: seq<Contact>, message: string, creds: Credentials, post: Request -> Reply, w: nat)
    requires w < NumBatches(|contacts|) + 2
    ensures |JobWrites(key, contacts, message, creds, post)| == NumBatches(|contacts|) + 2
    ensures w == 0 ==> JobWrites(key, contacts, message, creds, post)[w] == (key, Progress(Processing, |contacts|, []))
    ensures 0 < w <= NumBatches(|contacts|) ==>
      JobWrites(key, contacts, message, creds, post)[w] == BatchRecord(key, contacts, message, creds, post, w - 1)
    ensures w == NumBatches(|contacts|) + 1 ==>
      JobWrites(key, contacts, message, creds, post)[w] == (key, Progress(Completed, |contacts|, SendAll(contacts, message, creds, post)))
  {
    JobWritesFramed(key, contacts, message, creds, post);
    if 0 < w <= NumBatches(|contacts|) {
      JobWriteOfBatch(key, contacts, message, creds, post, w);
    }
  }

  /**
   * The job's writes: all under its key, `batches + 2` of them, each with
   * consistent counts and the full total; all but the last say
   * `processing`, the last says `completed` and holds one result per contact.
   */
  lemma JobWritesShape(key: string, contacts: seq<Contact>, message: string, creds: Credentials, post: Request -> Reply)
    ensures var ws := JobWrites(key, contacts, message, creds, post);
      && |ws| == NumBatches(|contacts|) + 2
      && (forall w :: 0 <= w < |ws| ==>
            ws[w].0 == key && ws[w].1.total == |contacts| && ws[w].1.completed + ws[w].1.failed == |ws[w].1.results|)
      && (forall w :: 0 <= w < |ws| - 1 ==> ws[w].1.status == Processing)
      && ws[|ws| - 1].1.status == Completed
      && |ws[|ws| - 1].1.results| == |contacts|
  {
    var ws := JobWrites(key, contacts, message, creds, post);
    var n := NumBatches(|contacts|);
    JobWriteAt(key, contacts, message, creds, post, n + 1);
    forall w | 0 <= w < |ws|
      ensures ws[w].0 == key && ws[w].1.total == |contacts| && ws[w].1.completed + ws[w].1.failed == |ws[w].1.results|
      ensures w < |ws| - 1 ==> ws[w].1.status == Processing
    {
      JobWriteAt(key, contacts, message, creds, post, w);
      ProgressConsistent(ws[w].1.status, |contacts|, ws[w].1.results);
    }
  }

  /** Each intermediate record holds a prefix of the final results: progress only grows. */
  lemma JobProgressGrows(key: string, contacts: seq<Contact>, message: string, creds: Credentials, post: Request -> Reply)
    ensures var ws := JobWrites(key, contacts, message, creds, post);
      forall w :: 0 < w < |ws| - 1 ==>
        ws[w].1.results == SendAll(contacts, message, creds, post)[..Clip(BatchSize * w, |contacts|)]
  {
    var ws := JobWrites(key, contacts, message, creds, post);
    JobWriteAt(key, contacts, message, creds, post, 0);
    forall w | 0 < w < |ws| - 1
      ensures ws[w].1.results == SendAll(contacts, message, creds, post)[..Clip(BatchSize * w, |contacts|)]
    {
      JobWriteAt(key, contacts, message, creds, post, w);
      SendAllPrefix(contacts, Clip(BatchSize * w, |contacts|), message, creds, post);
    }
  }

  /** The template condition in terms of `strip()`. */
  lemma TemplateCondition(templateName: string)
    ensures UseTemplate(templateName) <==> Strip(templateName) != "" && templateName != "hello_world"
  {
    StripNonEmpty(templateName);
  }

  /**
   * Payload choice: a template iff the template name is non-blank and not
   * `hello_world`; otherwise a text whose body is the message split at every
   * `{name}` and rejoined with the contact's name. The `to` field holds no `+`.
   */
  lemma PayloadChoice(c: Contact, message: string, creds: Credentials)
    ensures var p := BuildPayload(c, message, creds);
      var t := GetOr(creds, "templateName", "");
      && (p.TemplatePayload? <==> Strip(t) != "" && t != "hello_world")
      && (p.TemplatePayload? ==>
            p.templateName == t && p.languageCode == GetOr(creds, "languageCode", "pt_BR") && p.nameParameter == c.name.GetOr(""))
      && (p.TextPayload? ==> p.body == Join(Split(message, "{name}"), c.name.GetOr("")))
      && '+' !in p.to
      && p.to == RemoveChars(SourcePhone(c), {'+'})
  {
    TemplateCondition(GetOr(creds, "templateName", ""));
    ReplaceIsSplitJoin(message, "{name}", c.name.GetOr(""));
    ReplaceCharByNothing(SourcePhone(c), '+');
  }

  /**
   * With both credentials present, a contact's result is a success exactly
   * when the API answered 200, and then it carries the message id.
   */
  lemma ResultFollowsReply(c: Contact, message: string, creds: Credentials, post: Request -> Reply)
    requires "phoneNumberId" in creds && "accessToken" in creds
    ensures var request := Request(MessagesUrl(creds["phoneNumberId"]), "Bearer " + creds["accessToken"],
                                   BuildPayload(c, message, creds));
      var reply := post(request);
      var r := SendOne(c, message, creds, post);
      && (r.success <==> reply.Response? && reply.statusCode == 200)
      && (r.success ==> r.messageId == reply.messageId)
      && (reply.Raised? ==> r.error == Some(reply.error))
      && (reply.Response? && reply.statusCode != 200 ==> r.error == Some(reply.text))
  {
  }

  /** Without `phoneNumberId`, every contact fails with the `KeyError` text and nothing is posted. */
  lemma MissingNumberIdFailsAll(cs: seq<Contact>, message: string, creds: Credentials, post: Request -> Reply)
    requires "phoneNumberId" !in creds
    ensures forall k :: 0 <= k < |cs| ==>
      SendAll(cs, message, creds, post)[k] == ContactResult(cs[k].id, cs[k].cleanedPhone, false, None, Some("'phoneNumberId'"))
  {
    ResultsFollowContacts(cs, message, creds, post);
  }

  /** The body of `send_whatsapp_batch`. */
  datatype SendRequest = SendRequest(contacts: seq<Contact>, message: string, credentials: Credentials)

  /** The endpoint's answer: an HTTP error, or the accepted job. */
  datatype Answer =
    | HttpError(statusCode: int, detail: string)
    | Accepted(jobId: string, status: string, totalContacts: nat, estimatedMillis: nat)

  const RateLimitedDetail: string := "Limite de taxa excedido. Tente novamente mais tarde."
  const NoContactsDetail: string := "Nenhum contato fornecido"
  const RequiredCredentials: seq<string> := ["accessToken", "phoneNumberId"]

  /** `credentials.get(cred)` is truthy. */
  predicate HasCredential(creds: Credentials, cred: string) {
    cred in creds && creds[cred] != ""
  }

  /** The first required credential that is missing or empty. */
  function MissingCredential(creds: Credentials): Option<string> {
    match FirstIndex(RequiredCredentials, cred => !HasCredential(creds, cred))
    case Some(k) => Some(RequiredCredentials[k])
    case None => None
  }

  /** The answer once the rate limiter has given its verdict. */
  function Decide(admitted: bool, request: SendRequest, jobId: string): Answer {
    if !admitted then HttpError(429, RateLimitedDetail)
    else if request.contacts == [] then HttpError(400, NoContactsDetail)
    else match MissingCredential(request.credentials)
      case Some(cred) => HttpError(400, "Credencial faltando: " + cred)
      case None => Accepted(jobId, "processing", |request.contacts|, 100 * |request.contacts|)
  }

  /**
   * The guards in order, then the job: 429 when rate-limited, 400 without
   * contacts, 400 naming the first missing credential, else the job is
   * accepted (and, in this model, run to completion at once).
   */
  lemma DecideCases(admitted: bool, request: SendRequest, jobId: string)
    ensures var a := Decide(admitted, request, jobId);
      && (a == HttpError(429, RateLimitedDetail) <==> !admitted)
      && (a.Accepted? <==>
            admitted && request.contacts != [] && HasCredential(request.credentials, "accessToken")
            && HasCredential(request.credentials, "phoneNumberId"))
      && (admitted && request.contacts != [] && !HasCredential(request.credentials, "accessToken") ==>
            a == HttpError(400, "Credencial faltando: accessToken"))
      && (admitted && request.contacts != [] && HasCredential(request.credentials, "accessToken")
            && !HasCredential(request.credentials, "phoneNumberId") ==>
            a == HttpError(400, "Credencial faltando: phoneNumberId"))
      && (admitted && request.contacts == [] ==> a == HttpError(400, NoContactsDetail))
      && (a.Accepted? ==> a.totalContacts == |request.contacts| && a.jobId == jobId)
  {
    var creds := request.credentials;
    var m := FirstIndex(RequiredCredentials, cred => !HasCredential(creds, cred));
    if m.Some? {
      assert m.value == 0 || m.value == 1;
    }
    if !HasCredential(creds, "accessToken") {
      assert !HasCredential(creds, RequiredCredentials[0]);
    }
    if !HasCredential(creds, "phoneNumberId") {
      assert !HasCredential(creds, RequiredCredentials[1]);
    }
  }

  /**
   * `send_whatsapp_batch`: the rate check, the request checks, and the
   * background job, here run before the answer is returned.
   */
  method SendWhatsappBatch(store: RedisStore?<JobRecord>, clientIp: string, fault: Fault, request: SendRequest,
                           jobId: string, post: Request -> Reply)
    returns (answer: Answer)
    modifies store
    ensures store == null ==> answer == Decide(true, request, jobId)
    ensures store != null ==>
      var step := RateStep(old(store.counters), RateKey(clientIp), old(store.now), fault);
      && answer == Decide(step.1, request, jobId)
      && (!answer.Accepted? ==> store.counters == step.0 && store.writes == old(store.writes))
      && (answer.Accepted? ==>
            store.counters == step.0
            && store.writes == old(store.writes) + JobWrites(JobKey(jobId), request.contacts, request.message,
                                                             request.credentials, post))
    ensures store != null ==> store.now == old(store.now)
    ensures store != null && !answer.Accepted? ==> store.values == old(store.values)
    ensures store != null && answer.Accepted? ==>
      store.values == old(store.values)[JobKey(jobId) := Stored(
        Progress(Completed, |request.contacts|, SendAll(request.contacts, request.message, request.credentials, post)),
        store.now + JobTtl)]
  {
    var admitted := CheckRateLimit(store, clientIp, fault);
    if !admitted {
      return HttpError(429, RateLimitedDetail);
    }
    answer := StartJob(store, request, jobId, post);
  }

  /** The request checks of an admitted request, then the job; the rate counters are left alone. */
  method StartJob(store: RedisStore?<JobRecord>, request: SendRequest, jobId: string, post: Request -> Reply)
    returns (answer: Answer)
    modifies store
    ensures answer == Decide(true, request, jobId)
    ensures store != null ==> store.counters == old(store.counters) && store.now == old(store.now)
    ensures store != null && !answer.Accepted? ==> store.values == old(store.values) && store.writes == old(store.writes)
    ensures store != null && answer.Accepted? ==>
      && store.writes == old(store.writes) + JobWrites(JobKey(jobId), request.contacts, request.message,
                                                       request.credentials, post)
      && store.values == old(store.values)[JobKey(jobId) := Stored(
           Progress(Completed, |request.contacts|, SendAll(request.contacts, request.message, request.credentials, post)),
           store.now + JobTtl)]
  {
    if request.contacts == [] {
      return HttpError(400, NoContactsDetail);
    }
    var missing := FirstMissingCredential(request.credentials);
    if missing.Some? {
      return HttpError(400, "Credencial faltando: " + missing.value);
    }
    var _, _ := ProcessWhatsappBatch(store, jobId, request.contacts, request.message, request.credentials, post);
    answer := Accepted(jobId, "processing", |request.contacts|, 100 * |request.contacts|);
  }

  /** The loop over the required credentials: the first one that is missing or empty. */
  method FirstMissingCredential(credentials: Credentials) returns (missing: Option<string>)
    ensures missing == MissingCredential(credentials)
  {
    for j := 0 to |RequiredCredentials|
      invariant forall k :: 0 <= k < j ==> HasCredential(credentials, RequiredCredentials[k])
    {
      var cred := RequiredCredentials[j];
      if !(cred in credentials && credentials[cred] != "") {
        assert MissingCredential(credentials) == Some(cred);
        return Some(cred);
      }
    }
    assert MissingCredential(credentials) == None;
    return None;
  }
}
