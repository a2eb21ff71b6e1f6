/** Cloudflare as the operator meets it: a store of records behind calls that can be
    refused, or be carried out and lose their response; and the retry loop around a call. */
module CloudflareAPI {
  import opened Types
  import opened SSL
  import opened Listing

  // records: what exists now. next: the next id, so that ids are never reused.
  // History: issued is every id ever given out with its hostname, made the ids given to
  // create calls of the operator.
  datatype Cloud = Cloud(records: map<Id, Record>, next: Id, issued: map<Id, string>, made: set<Id>)

  // What the server fills in by itself when it creates or edits a record.
  datatype Fill = Fill(status: string, originSNI: string, ssl: CFSSL)

  // The single calls the operator makes. A Find carries the listing it will be answered with.
  datatype Call =
    | Find(pages: seq<seq<Record>>, hostname: string)
    | New(zone: string, hostname: string, originServer: string, originSNI: Option<string>, sslParams: SSLConfig)
    | Edit(zone: string, id: Id, originServer: string, originSNI: Option<string>, sslEdit: Option<SSLConfig>)
    | Delete(zone: string, id: Id)

  datatype Code = NotFound | TooManyRequests | OtherFailure
  datatype Reply = Success(record: Option<Record>) | Failed(code: Code)

  // What becomes of one attempt. A 404 is never drawn at random: it is the server's answer
  // for an id that does not exist in the zone.
  datatype Fate = Processed(fill: Fill) | ResponseLost(fill: Fill) | Refused(rateLimited: bool)

  // cancelled: the context is cancelled by the time this attempt has returned.
  datatype Attempt = Attempt(fate: Fate, cancelled: bool)

  // The settings after a request: what was sent, and the server's own choice elsewhere.
  function Provision(sent: SSLConfig, fill: SSLConfig): SSLConfig {
    SSLConfig(
      OrElse(sent.certificateAuthority, fill.certificateAuthority),
      OrElse(sent.minTLSVersion, fill.minTLSVersion),
      OrElse(sent.dcvMethod, fill.dcvMethod),
      OrElse(sent.validationType, fill.validationType))
  }

  function NewRecord(id: Id, call: Call, fill: Fill): Record
    requires call.New?
  {
    Record(id, call.zone, call.hostname, fill.status, call.originServer,
           if call.originSNI.Some? then call.originSNI.value else fill.originSNI,
           fill.ssl.(config := Provision(call.sslParams, fill.ssl.config)))
  }

  // An edit with an ssl block may reset every setting the block leaves out.
  function EditedRecord(was: Record, call: Call, fill: Fill): Record
    requires call.Edit?
  {
    was.(status := fill.status,
         originServer := call.originServer,
         originSNI := if call.originSNI.Some? then call.originSNI.value else was.originSNI,
         ssl := fill.ssl.(config := if call.sslEdit.Some? then Provision(call.sslEdit.value, fill.ssl.config)
                                    else was.ssl.config))
  }

  // The record a call addresses exists in the addressed zone.
  predicate Addressed(cloud: Cloud, zone: string, id: Id) {
    id in cloud.records && cloud.records[id].zone == zone
  }

  // The server carries out a call.
  function Apply(cloud: Cloud, call: Call, fill: Fill): (Cloud, Reply) {
    match call
    case Find(pages, hostname) =>
      (cloud, Success(FirstMatch(Flatten(pages), hostname)))
    case New(_, hostname, _, _, _) =>
      var id := cloud.next;
      var record := NewRecord(id, call, fill);
      (Cloud(cloud.records[id := record], id + 1, cloud.issued[id := hostname], cloud.made + {id}),
       Success(Some(record)))
    case Edit(zone, id, _, _, _) =>
      if Addressed(cloud, zone, id) then
        var record := EditedRecord(cloud.records[id], call, fill);
        (cloud.(records := cloud.records[id := record]), Success(Some(record)))
      else (cloud, Failed(NotFound))
    case Delete(zone, id) =>
      if Addressed(cloud, zone, id) then (cloud.(records := cloud.records - {id}), Success(None))
      else (cloud, Failed(NotFound))
  }

  function Serve(cloud: Cloud, call: Call, fate: Fate): (Cloud, Reply) {
    match fate
    case Processed(fill) => Apply(cloud, call, fill)
    case ResponseLost(fill) => (Apply(cloud, call, fill).0, Failed(OtherFailure))
    case Refused(rateLimited) => (cloud, Failed(if rateLimited then TooManyRequests else OtherFailure))
  }

  // ---- Records of a hostname ----

  ghost predicate IsRecordOf(records: map<Id, Record>, zone: string, hostname: string, id: Id) {
    id in records && records[id].zone == zone && records[id].hostname == hostname
  }

  ghost predicate AtMostOne(records: map<Id, Record>, zone: string, hostname: string) {
    forall i, j :: IsRecordOf(records, zone, hostname, i) && IsRecordOf(records, zone, hostname, j) ==> i == j
  }

  // The same records of the hostname, and the same contents.
  ghost predicate SameRecords(a: map<Id, Record>, b: map<Id, Record>, hostname: string) {
    && (forall id :: id in a && a[id].hostname == hostname ==> id in b && b[id] == a[id])
    && (forall id :: id in b && b[id].hostname == hostname ==> id in a && a[id] == b[id])
  }

  // ---- Retrying ----

  const UNREACHABLE := Attempt(Refused(false), false)

  // Attempts beyond the given ones fail.
  function First(attempts: seq<Attempt>): Attempt {
    if attempts == [] then UNREACHABLE else attempts[0]
  }

  function Rest(attempts: seq<Attempt>): seq<Attempt> {
    if attempts == [] then [] else attempts[1..]
  }

  datatype Retried = Retried(cloud: Cloud, reply: Reply, attempts: nat)

  // The call is made again after a failure other than 429, while retries are left and the
  // context lives.
  function Retry(cloud: Cloud, call: Call, attempts: seq<Attempt>, maxRetries: nat): (r: Retried)
    ensures 1 <= r.attempts <= maxRetries + 1
    decreases maxRetries
  {
    var a := First(attempts);
    var (after, reply) := Serve(cloud, call, a.fate);
    if reply.Success? || reply.code == TooManyRequests || maxRetries == 0 || a.cancelled then
      Retried(after, reply, 1)
    else
      var r := Retry(after, call, Rest(attempts), maxRetries - 1);
      r.(attempts := r.attempts + 1)
  }

  // The number of create attempts that reach the server.
  function Reached(attempts: seq<Attempt>, maxRetries: nat): nat
    decreases maxRetries
  {
    var a := First(attempts);
    var here := if a.fate.Refused? then 0 else 1;
    if a.fate.Processed? || (a.fate.Refused? && a.fate.rateLimited) || maxRetries == 0 || a.cancelled then here
    else here + Reached(Rest(attempts), maxRetries - 1)
  }

  class Cloudflare {
    var cloud: Cloud

    constructor (cloud: Cloud)
      ensures this.cloud == cloud
    {
      this.cloud := cloud;
    }

    /** One attempt at a call. */
    method Do(call: Call, fate: Fate) returns (reply: Reply)
      modifies this
      ensures (cloud, reply) == Serve(old(cloud), call, fate)
    {
      match fate
      case Refused(rateLimited) =>
        reply := Failed(if rateLimited then TooManyRequests else OtherFailure);
      case ResponseLost(fill) =>
        cloud := Apply(cloud, call, fill).0;
        reply := Failed(OtherFailure);
      case Processed(fill) =>
        if call.Find? {
          var found, err := FindByHostname(call.pages, false, call.hostname);
          reply := Success(found);
        } else {
          var (after, answer) := Apply(cloud, call, fill);
          cloud, reply := after, answer;
        }
    }

    /** cfRetry: the loop over attempts, with the number of attempts made. */
    method CfRetry(call: Call, attempts: seq<Attempt>, maxRetries: nat) returns (made: nat, reply: Reply)
      modifies this
      ensures Retried(cloud, reply, made) == Retry(old(cloud), call, attempts, maxRetries)
    {
      var left := attempts;
      var cancelled := false;
      reply := Failed(OtherFailure);
      var attempt: nat := 0;
      while attempt <= maxRetries
        invariant attempt <= maxRetries
        invariant attempt == 0 ==> cloud == old(cloud) && left == attempts
        invariant attempt > 0 && cancelled ==>
                    Retried(cloud, reply, attempt) == Retry(old(cloud), call, attempts, maxRetries)
        invariant attempt == 0 || !cancelled ==>
                    var r := Retry(cloud, call, left, maxRetries - attempt);
                    r.(attempts := r.attempts + attempt) == Retry(old(cloud), call, attempts, maxRetries)
        decreases maxRetries - attempt
      {
        if attempt > 0 && cancelled {
          return attempt, reply;
        }
        var a := First(left);
        reply := Do(call, a.fate);
        left, cancelled := Rest(left), a.cancelled;
        if reply.Success? || reply.code == TooManyRequests {
          return attempt + 1, reply;
        }
        if attempt == maxRetries {
          break;
        }
        attempt := attempt + 1;
      }
      return maxRetries + 1, reply;
    }
  }

  // ---- The retry loop in closed form ----

  function At(attempts: seq<Attempt>, i: nat): Attempt {
    if i < |attempts| then attempts[i] else UNREACHABLE
  }

  // The store after the first n attempts, one after the other.
  function After(cloud: Cloud, call: Call, attempts: seq<Attempt>, n: nat): Cloud {
    if n == 0 then cloud else Serve(After(cloud, call, attempts, n - 1), call, At(attempts, n - 1).fate).0
  }

  function Answer(cloud: Cloud, call: Call, attempts: seq<Attempt>, i: nat): Reply {
    Serve(After(cloud, call, attempts, i), call, At(attempts, i).fate).1
  }

  // There is no attempt after this one: it has succeeded, is rate limited, or is cancelled.
  ghost predicate Ends(cloud: Cloud, call: Call, attempts: seq<Attempt>, i: nat) {
    || Answer(cloud, call, attempts, i).Success?
    || Answer(cloud, call, attempts, i) == Failed(TooManyRequests)
    || At(attempts, i).cancelled
  }

  lemma {:induction false} AfterRest(cloud: Cloud, call: Call, attempts: seq<Attempt>, n: nat)
    requires n > 0
    ensures After(cloud, call, attempts, n)
            == After(Serve(cloud, call, First(attempts).fate).0, call, Rest(attempts), n - 1)
  {
    if n > 1 {
      AfterRest(cloud, call, attempts, n - 1);
      assert At(attempts, n - 1) == At(Rest(attempts), n - 2);
    }
  }

  // The i-th attempt after the first is the attempt i + 1.
  lemma LaterAttempt(cloud: Cloud, call: Call, attempts: seq<Attempt>, i: nat)
    ensures var after := Serve(cloud, call, First(attempts).fate).0;
            && Answer(after, call, Rest(attempts), i) == Answer(cloud, call, attempts, i + 1)
            && (Ends(after, call, Rest(attempts), i) <==> Ends(cloud, call, attempts, i + 1))
  {
    AfterRest(cloud, call, attempts, i + 1);
    assert At(Rest(attempts), i) == At(attempts, i + 1);
  }

  lemma NoneEndsBefore(cloud: Cloud, call: Call, attempts: seq<Attempt>, k: nat)
    requires k > 0 && !Ends(cloud, call, attempts, 0)
    requires var after := Serve(cloud, call, First(attempts).fate).0;
             forall i: nat :: i < k - 1 ==> !Ends(after, call, Rest(attempts), i)
    ensures forall i: nat :: i < k ==> !Ends(cloud, call, attempts, i)
  {
    forall i: nat | i < k ensures !Ends(cloud, call, attempts, i) {
      if i > 0 {
        LaterAttempt(cloud, call, attempts, i - 1);
      }
    }
  }

  // The loop ends with its first attempt, or goes on with the rest.
  lemma FirstOrLater(cloud: Cloud, call: Call, attempts: seq<Attempt>, maxRetries: nat)
    ensures var r, after := Retry(cloud, call, attempts, maxRetries), Serve(cloud, call, First(attempts).fate).0;
            if maxRetries == 0 || Ends(cloud, call, attempts, 0) then
              r == Retried(after, Answer(cloud, call, attempts, 0), 1)
            else
              var later := Retry(after, call, Rest(attempts), maxRetries - 1);
              r == later.(attempts := later.attempts + 1)
  {
    assert After(cloud, call, attempts, 0) == cloud && At(attempts, 0) == First(attempts);
  }

  /** Every call, of whatever kind, is attempted until the first attempt that succeeds, is rate
      limited or cancelled, or is the last one allowed, and not any further. The answer is that
      of this attempt, and the store is what all of them have done, one after the other. */
  lemma {:induction false} RetryStopsAtFirst(cloud: Cloud, call: Call, attempts: seq<Attempt>, maxRetries: nat)
    ensures var r := Retry(cloud, call, attempts, maxRetries);
            var k: nat := r.attempts - 1;
            && k <= maxRetries
            && (k == maxRetries || Ends(cloud, call, attempts, k))
            && (forall i: nat :: i < k ==> !Ends(cloud, call, attempts, i))
            && r.reply == Answer(cloud, call, attempts, k)
            && r.cloud == After(cloud, call, attempts, k + 1)
    decreases maxRetries
  {
    var r, after := Retry(cloud, call, attempts, maxRetries), Serve(cloud, call, First(attempts).fate).0;
    FirstOrLater(cloud, call, attempts, maxRetries);
    AfterRest(cloud, call, attempts, r.attempts);
    if maxRetries > 0 && !Ends(cloud, call, attempts, 0) {
      RetryStopsAtFirst(after, call, Rest(attempts), maxRetries - 1);
      LaterAttempt(cloud, call, attempts, r.attempts - 2);
      NoneEndsBefore(cloud, call, attempts, r.attempts - 1);
    }
  }

  // ---- Store invariants ----

  // Records are filed under their id, ids are positive and below next, and the history
  // knows the hostname of each.
  ghost predicate CloudWF(cloud: Cloud) {
    && cloud.next > 0
    && (forall id :: id in cloud.records ==>
                       && cloud.records[id].id == id
                       && id in cloud.issued
                       && cloud.issued[id] == cloud.records[id].hostname)
    && (forall id :: id in cloud.issued ==> 0 < id < cloud.next)
    && (forall id :: id in cloud.made ==> id in cloud.issued)
  }

  // History only grows.
  ghost predicate Extends(before: Cloud, after: Cloud) {
    && before.next <= after.next
    && (forall id :: id in before.issued ==> id in after.issued && after.issued[id] == before.issued[id])
  }

  lemma {:induction false} RetryKeepsCloudWF(cloud: Cloud, call: Call, attempts: seq<Attempt>, maxRetries: nat)
    requires CloudWF(cloud)
    ensures var r := Retry(cloud, call, attempts, maxRetries); CloudWF(r.cloud) && Extends(cloud, r.cloud)
    decreases maxRetries
  {
    var a := First(attempts);
    var (after, reply) := Serve(cloud, call, a.fate);
    assert CloudWF(after) && Extends(cloud, after);
    if !(reply.Success? || reply.code == TooManyRequests || maxRetries == 0 || a.cancelled) {
      RetryKeepsCloudWF(after, call, Rest(attempts), maxRetries - 1);
    }
  }

  lemma {:induction false} FindChangesNothing(cloud: Cloud, pages: seq<seq<Record>>, hostname: string,
                                              attempts: seq<Attempt>, maxRetries: nat)
    ensures var r := Retry(cloud, Find(pages, hostname), attempts, maxRetries);
            && r.cloud == cloud
            && (r.reply.Success? ==> r.reply.record == FirstMatch(Flatten(pages), hostname))
    decreases maxRetries
  {
    var a := First(attempts);
    var (after, reply) := Serve(cloud, Find(pages, hostname), a.fate);
    if !(reply.Success? || reply.code == TooManyRequests || maxRetries == 0 || a.cancelled) {
      FindChangesNothing(after, pages, hostname, Rest(attempts), maxRetries - 1);
    }
  }

  // The record is one that the create call asked for.
  ghost predicate MadeBy(call: Call, record: Record)
    requires call.New?
  {
    exists fill :: record == NewRecord(record.id, call, fill)
  }

  // The record is what the edit call makes of an earlier one.
  ghost predicate EditedBy(call: Call, was: Record, record: Record)
    requires call.Edit?
  {
    exists fill :: record == EditedRecord(was, call, fill)
  }

  // after is before plus a record of the call under every id in between.
  ghost predicate Adds(before: Cloud, after: Cloud, call: Call)
    requires call.New?
  {
    && before.next <= after.next
    && (forall id :: id in before.records ==> id in after.records && after.records[id] == before.records[id])
    && (forall id :: id in after.records ==> id in before.records || before.next <= id < after.next)
    && (forall id :: before.next <= id < after.next ==>
                       && id in after.records
                       && id in after.made
                       && MadeBy(call, after.records[id]))
    && (forall id :: id < before.next ==> (id in after.made <==> id in before.made))
  }

  /** Creating adds one record of the call for each attempt that reaches the server, under
      fresh ids, and changes no other record. A success names one of them. */
  lemma {:induction false} RetriedNew(cloud: Cloud, call: Call, attempts: seq<Attempt>, maxRetries: nat)
    requires CloudWF(cloud) && call.New?
    ensures var r := Retry(cloud, call, attempts, maxRetries);
            && r.cloud.next == cloud.next + Reached(attempts, maxRetries)
            && Adds(cloud, r.cloud, call)
            && (r.reply.Success? ==>
                  && r.reply.record.Some?
                  && cloud.next <= r.reply.record.value.id < r.cloud.next
                  && r.cloud.records[r.reply.record.value.id] == r.reply.record.value)
    decreases maxRetries
  {
    var a := First(attempts);
    var (after, reply) := Serve(cloud, call, a.fate);
    AttemptedNew(cloud, call, a.fate);
    if !(reply.Success? || reply.code == TooManyRequests || maxRetries == 0 || a.cancelled) {
      RetriedNew(after, call, Rest(attempts), maxRetries - 1);
      AddsTransitive(cloud, after, Retry(after, call, Rest(attempts), maxRetries - 1).cloud, call);
    }
  }

  // A created record is issued for its hostname.
  lemma {:induction false} CreatedIsIssued(cloud: Cloud, call: Call, attempts: seq<Attempt>, maxRetries: nat)
    requires CloudWF(cloud) && call.New?
    ensures var r := Retry(cloud, call, attempts, maxRetries);
            r.reply.Success? ==>
              && r.reply.record.Some?
              && r.reply.record.value.id != 0
              && r.reply.record.value.id in r.cloud.issued
              && r.cloud.issued[r.reply.record.value.id] == call.hostname
    decreases maxRetries
  {
    var a := First(attempts);
    var (after, reply) := Serve(cloud, call, a.fate);
    if !(reply.Success? || reply.code == TooManyRequests || maxRetries == 0 || a.cancelled) {
      AttemptedNew(cloud, call, a.fate);
      CreatedIsIssued(after, call, Rest(attempts), maxRetries - 1);
    }
  }

  lemma AttemptedNew(cloud: Cloud, call: Call, fate: Fate)
    requires CloudWF(cloud) && call.New?
    ensures var (after, reply) := Serve(cloud, call, fate);
            && CloudWF(after)
            && Adds(cloud, after, call)
            && after.next == cloud.next + (if fate.Refused? then 0 else 1)
            && (reply.Success? <==> fate.Processed?)
            && (reply.Success? ==>
                  reply.record == Some(after.records[cloud.next]) && reply.record.value.id == cloud.next)
            && (reply.Failed? ==> (reply.code == TooManyRequests <==> fate.Refused? && fate.rateLimited))
  {
  }

  lemma AddsTransitive(a: Cloud, b: Cloud, c: Cloud, call: Call)
    requires call.New? && Adds(a, b, call) && Adds(b, c, call)
    ensures Adds(a, c, call)
  {
  }

  // Nothing but the addressed record differs, and that only by this edit.
  ghost predicate Edits(before: Cloud, after: Cloud, call: Call)
    requires call.Edit?
  {
    || after == before
    || (Addressed(before, call.zone, call.id)
        && exists record :: EditedBy(call, before.records[call.id], record)
                            && after == before.(records := before.records[call.id := record]))
  }

  /** Editing changes at most the addressed record, and that to what the call asks for
      however often the call is carried out. */
  lemma {:induction false} RetriedEdit(cloud: Cloud, call: Call, attempts: seq<Attempt>, maxRetries: nat)
    requires call.Edit?
    ensures var r := Retry(cloud, call, attempts, maxRetries);
            && Edits(cloud, r.cloud, call)
            && (r.reply.Success? ==> Addressed(r.cloud, call.zone, call.id)
                                     && r.reply.record == Some(r.cloud.records[call.id])
                                     && EditedBy(call, cloud.records[call.id], r.cloud.records[call.id]))
    decreases maxRetries
  {
    var a := First(attempts);
    var (after, reply) := Serve(cloud, call, a.fate);
    AttemptedEdit(cloud, call, a.fate);
    if !(reply.Success? || reply.code == TooManyRequests || maxRetries == 0 || a.cancelled) {
      RetriedEdit(after, call, Rest(attempts), maxRetries - 1);
      var last := Retry(after, call, Rest(attempts), maxRetries - 1).cloud;
      EditsTransitive(cloud, after, last, call);
      if Addressed(after, call.zone, call.id) && Addressed(last, call.zone, call.id) {
        EditedByAbsorbs(call, cloud.records[call.id], after.records[call.id], last.records[call.id]);
      }
    }
  }

  lemma AttemptedEdit(cloud: Cloud, call: Call, fate: Fate)
    requires call.Edit?
    ensures var (after, reply) := Serve(cloud, call, fate);
            && Edits(cloud, after, call)
            && (after == cloud || EditedBy(call, cloud.records[call.id], after.records[call.id]))
            && (reply.Success? ==> Addressed(after, call.zone, call.id)
                                   && reply.record == Some(after.records[call.id])
                                   && EditedBy(call, cloud.records[call.id], after.records[call.id]))
  {
    if !fate.Refused? && Addressed(cloud, call.zone, call.id) {
      var record := EditedRecord(cloud.records[call.id], call, fate.fill);
      assert EditedBy(call, cloud.records[call.id], record);
    }
  }

  // Editing the same way again hides the first time.
  lemma EditedByAbsorbs(call: Call, a: Record, b: Record, c: Record)
    requires call.Edit? && (a == b || EditedBy(call, a, b))
    ensures EditedBy(call, b, c) ==> EditedBy(call, a, c)
  {
    if EditedBy(call, b, c) {
      var fill :| c == EditedRecord(b, call, fill);
      assert c == EditedRecord(a, call, fill);
    }
  }

  lemma EditsTransitive(a: Cloud, b: Cloud, c: Cloud, call: Call)
    requires call.Edit? && Edits(a, b, call) && Edits(b, c, call)
    ensures Edits(a, c, call)
  {
    if a != b && b != c {
      var first :| EditedBy(call, a.records[call.id], first) && b == a.(records := a.records[call.id := first]);
      var second :| EditedBy(call, b.records[call.id], second) && c == b.(records := b.records[call.id := second]);
      EditedByAbsorbs(call, a.records[call.id], first, second);
      assert b.records[call.id := second] == a.records[call.id := second];
    }
  }

  /** Deleting is safe under every sequence of failures: success and 404 both mean that the
      addressed zone has no record of the id left, and no other record is ever touched. */
  lemma {:induction false} RetriedDelete(cloud: Cloud, call: Call, attempts: seq<Attempt>, maxRetries: nat)
    requires call.Delete?
    ensures var r := Retry(cloud, call, attempts, maxRetries);
            && (r.cloud == cloud
                || (Addressed(cloud, call.zone, call.id) && r.cloud == cloud.(records := cloud.records - {call.id})))
            && (r.reply.Success? || r.reply.code == NotFound ==> !Addressed(r.cloud, call.zone, call.id))
    decreases maxRetries
  {
    var a := First(attempts);
    var (after, reply) := Serve(cloud, call, a.fate);
    if !(reply.Success? || reply.code == TooManyRequests || maxRetries == 0 || a.cancelled) {
      RetriedDelete(after, call, Rest(attempts), maxRetries - 1);
    }
  }

  // A setting that Cloudflare has and the spec is silent about stays.
  ghost predicate Unset(spec: string, was: string, now: string) {
    was != "" && spec == "" ==> now == was
  }

  // The edit changes nothing that the spec leaves unset.
  ghost predicate KeepsUnset(spec: Spec, was: Record, now: Record) {
    var asked, before, after := Settings(spec), was.ssl.config, now.ssl.config;
    && (spec.originSNI == None ==> now.originSNI == was.originSNI)
    && (spec.ssl == None ==> after == before)
    && Unset(asked.certificateAuthority, before.certificateAuthority, after.certificateAuthority)
    && Unset(asked.minTLSVersion, before.minTLSVersion, after.minTLSVersion)
    && Unset(asked.dcvMethod, before.dcvMethod, after.dcvMethod)
    && Unset(asked.validationType, before.validationType, after.validationType)
  }

  /** One edit closes the drift and loses nothing, even when Cloudflare resets every setting
      that is not sent. */
  lemma EditClosesDrift(spec: Spec, existing: Record, zone: string, fill: Fill)
    ensures var ssl := if spec.ssl.Some? then Some(BuildSSLEditParams(spec.ssl.value, existing.ssl.config)) else None;
            var call := Edit(zone, existing.id, spec.originServer, spec.originSNI, ssl);
            var edited := EditedRecord(existing, call, fill);
            Meets(spec, edited) && KeepsUnset(spec, existing, edited)
  {
  }

  // The setting as created: the spec's value, else the operator's default, else whatever
  // Cloudflare picks.
  ghost predicate Defaulted(spec: string, default: string, created: string) {
    (spec != "" ==> created == spec) && (spec == "" && default != "" ==> created == default)
  }

  // Where the spec is silent the operator's defaults apply, and http and dv beyond them.
  ghost predicate AppliesDefaults(spec: Spec, defaults: SSLConfig, record: Record) {
    var asked, created := Settings(spec), record.ssl.config;
    && Defaulted(asked.certificateAuthority, defaults.certificateAuthority, created.certificateAuthority)
    && Defaulted(asked.minTLSVersion, defaults.minTLSVersion, created.minTLSVersion)
    && Defaulted(asked.dcvMethod, defaults.dcvMethod, created.dcvMethod)
    && Defaulted(asked.validationType, defaults.validationType, created.validationType)
    && (asked.dcvMethod == "" && defaults.dcvMethod == "" ==> created.dcvMethod == "http")
    && (asked.validationType == "" && defaults.validationType == "" ==> created.validationType == "dv")
  }

  /** A created record meets its spec whatever the operator defaults and Cloudflare's own
      choices are; a default applies exactly where the spec is silent. */
  lemma CreateHasNoDrift(spec: Spec, defaults: SSLConfig, zone: string, id: Id, fill: Fill)
    ensures var ssl := BuildSSLParams(Settings(spec), defaults);
            var record := NewRecord(id, New(zone, spec.hostname, spec.originServer, spec.originSNI, ssl), fill);
            Meets(spec, record) && AppliesDefaults(spec, defaults, record)
  {
  }

  // Every attempt the retry loop can make is carried out.
  ghost predicate AllProcessed(attempts: seq<Attempt>, maxRetries: nat) {
    maxRetries < |attempts| && forall k :: 0 <= k < |attempts| ==> attempts[k].fate.Processed?
  }

  // Deleting what is not in the zone gets a 404 however often it is tried.
  lemma {:induction false} MissingIsNotFound(cloud: Cloud, zone: string, id: Id,
                                             attempts: seq<Attempt>, maxRetries: nat)
    requires !Addressed(cloud, zone, id) && AllProcessed(attempts, maxRetries)
    ensures var r := Retry(cloud, Delete(zone, id), attempts, maxRetries);
            r.cloud == cloud && r.reply == Failed(NotFound)
    decreases maxRetries
  {
    if maxRetries > 0 && !attempts[0].cancelled {
      MissingIsNotFound(cloud, zone, id, attempts[1..], maxRetries - 1);
    }
  }

  // A delete without failures is answered: the record is gone, or was not there.
  lemma DeleteIsAnswered(cloud: Cloud, zone: string, id: Id, attempts: seq<Attempt>, maxRetries: nat)
    requires AllProcessed(attempts, maxRetries)
    ensures var r := Retry(cloud, Delete(zone, id), attempts, maxRetries); r.reply.Success? || r.reply.code == NotFound
  {
    if !Addressed(cloud, zone, id) {
      MissingIsNotFound(cloud, zone, id, attempts, maxRetries);
    }
  }
}
