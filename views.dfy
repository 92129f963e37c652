/** BaseNotificationView (django_sagepay/views.py): the handler for the
    notification Sage Pay posts once a payment has been attempted.

    The view finds the record by the posted VendorTxCode, checks the
    signature, refuses a second notification for the same record, and
    otherwise stores the notification, runs the success or failure hook and
    acknowledges with the URL the shopper is to be sent to. The request's
    `build_absolute_uri` is a field of the view; the hooks, which
    subclasses override, are recorded in a log. */
module Views {
  import opened Base
  import Codec
  import Models
  import Text

  /** A response dictionary: Status, StatusDetail and RedirectURL. */
  type Reply = map<string, string>

  /** A call of `handle_transaction_success` or `handle_transaction_failure`
      for the record with this vendor transaction id. */
  datatype Hook = Success(vendorTxId: string) | Failure(vendorTxId: string)

  /** What the view reads from the record it found: the signature verdict
      for the posted data, whether a notification date is already set, and
      the record's extra data. */
  datatype Snapshot = Snapshot(verdict: Result<bool>, notified: bool, extraData: map<string, string>)

  /** A response dictionary with its three keys. */
  function MakeReply(status: string, detail: string, redirectUrl: string): (r: Reply)
    ensures r.Keys == {"Status", "StatusDetail", "RedirectURL"}
    ensures r["Status"] == status && r["StatusDetail"] == detail && r["RedirectURL"] == redirectUrl
  {
    map["Status" := status, "StatusDetail" := detail, "RedirectURL" := redirectUrl]
  }

  /** `transaction_not_found_response` */
  function NotFoundReply(defaultUrl: string): Reply
  {
    MakeReply("ERROR", "VendorTxCode did not match any transaction", defaultUrl)
  }

  /** `invalid_signature_response` */
  function InvalidSignatureReply(failureUrl: string): Reply
  {
    MakeReply("INVALID", "VPSSignature did not match", failureUrl)
  }

  /** `transaction_already_complete_response` */
  function AlreadyCompleteReply(failureUrl: string): Reply
  {
    MakeReply("ERROR", "Transaction already processed", failureUrl)
  }

  /** `acknowledge_transaction_response`: 'OK' for every notification
      status except 'ERROR', which is answered 'INVALID'. */
  function AcknowledgeReply(status: string, redirectUrl: string): Reply
  {
    MakeReply(if status != "ERROR" then "OK" else "INVALID", "", redirectUrl)
  }

  /** `get_success_url`: the record's 'success_url', else the default. */
  function SuccessUrl(extraData: map<string, string>, defaultUrl: string): string
  {
    GetOr(extraData, "success_url", defaultUrl)
  }

  /** `get_failure_url`: the record's 'failure_url', else the default. */
  function FailureUrl(extraData: map<string, string>, defaultUrl: string): string
  {
    GetOr(extraData, "failure_url", defaultUrl)
  }

  /** The notification is stored, a hook runs and the record is saved: the
      record exists, the signature matches, no earlier notification was
      stored, and the posted data has a Status. */
  predicate Records(found: Option<Snapshot>, data: map<string, string>)
  {
    && found.Some? && found.value.verdict == Ok(true) && !found.value.notified
    && "Status" in data
  }

  /** What `notification_response` returns, or the error it raises, for the
      record found (if any) and the posted data. */
  function Outcome(found: Option<Snapshot>, data: map<string, string>, defaultUrl: string): Result<Reply>
  {
    match found
    case None => Ok(NotFoundReply(defaultUrl))
    case Some(s) =>
      match s.verdict
      case Err(e) => Err(e)
      case Ok(valid) =>
        if !valid then Ok(InvalidSignatureReply(FailureUrl(s.extraData, defaultUrl)))
        else if s.notified then Ok(AlreadyCompleteReply(FailureUrl(s.extraData, defaultUrl)))
        else if "Status" !in data then Err(KeyError("Status"))
        else
          var url := if data["Status"] == "OK" then SuccessUrl(s.extraData, defaultUrl)
                     else FailureUrl(s.extraData, defaultUrl);
          Ok(AcknowledgeReply(data["Status"], url))
  }

  /** The id the view looks the record up by: `data.get('VendorTxCode', '')`. */
  function LookupKey(data: map<string, string>): string
  {
    GetOr(data, "VendorTxCode", "")
  }

  /** The record the lookup finds, as a set (empty when there is none): the
      only record the view may change. */
  function Target(store: Models.TransactionStore, data: map<string, string>): set<Models.Transaction>
    reads store
  {
    if LookupKey(data) in store.records then {store.records[LookupKey(data)]} else {}
  }

  /** What the view reads from the record the lookup finds. */
  function Found(store: Models.TransactionStore, data: map<string, string>, md5: string -> string)
    : Option<Snapshot>
    reads store, Target(store, data)
  {
    var key := LookupKey(data);
    if key !in store.records then None
    else
      var t := store.records[key];
      Some(Snapshot(Models.SignatureVerdict(md5, t.request, t.response, data),
                    t.notificationDate.Some?, t.extraData))
  }

  /** The hook a recorded notification runs. */
  function HookFor(status: string, vendorTxId: string): Hook
  {
    if status == "OK" then Success(vendorTxId) else Failure(vendorTxId)
  }

  /** A notification is acknowledged (a reply with an empty StatusDetail)
      exactly when it is recorded; every refusal names its reason. */
  lemma AcknowledgedIffRecorded(found: Option<Snapshot>, data: map<string, string>, defaultUrl: string)
    ensures var r := Outcome(found, data, defaultUrl);
      (r.Ok? && r.value["StatusDetail"] == "") <==> Records(found, data)
  {
    var r := Outcome(found, data, defaultUrl);
    if r.Ok? && !Records(found, data) {
      assert r.value["StatusDetail"] != "" by {
        if found.None? {
          assert r.value["StatusDetail"][0] == 'V';
        } else if found.value.verdict == Ok(false) {
          assert r.value["StatusDetail"][0] == 'V';
        } else {
          assert r.value["StatusDetail"][0] == 'T';
        }
      }
    }
  }

  /** The signature is checked before the duplicate test: a bad signature is
      answered INVALID with the failure URL whether or not the record was
      already notified, and whatever the posted Status. */
  lemma SignatureCheckedFirst(s: Snapshot, data: map<string, string>, defaultUrl: string)
    requires s.verdict == Ok(false)
    ensures var r := Outcome(Some(s), data, defaultUrl);
      && r.Ok? && r.value["Status"] == "INVALID"
      && r.value["RedirectURL"] == FailureUrl(s.extraData, defaultUrl)
      && !Records(Some(s), data)
  {
  }

  /** A recorded notification is answered 'OK', or 'INVALID' when Sage Pay
      itself reported 'ERROR', and sends the shopper to the success URL for
      Status 'OK' and to the failure URL otherwise. */
  lemma AcknowledgementContents(found: Option<Snapshot>, data: map<string, string>, defaultUrl: string)
    requires Records(found, data)
    ensures var r := Outcome(found, data, defaultUrl);
      && r.Ok?
      && r.value["Status"] == (if data["Status"] == "ERROR" then "INVALID" else "OK")
      && r.value["RedirectURL"] ==
           (if data["Status"] == "OK" then GetOr(found.value.extraData, "success_url", defaultUrl)
            else GetOr(found.value.extraData, "failure_url", defaultUrl))
  {
  }

  /** Once a record holds a notification date, no later notification for it
      is recorded: a valid one is answered ERROR 'Transaction already
      processed' with the failure URL, an invalid one INVALID. */
  lemma ReplayRefused(v: Result<bool>, extraData: map<string, string>, data: map<string, string>,
                      defaultUrl: string)
    ensures var found := Some(Snapshot(v, true, extraData));
      var r := Outcome(found, data, defaultUrl);
      && !Records(found, data)
      && (v == Ok(true) ==> r == Ok(AlreadyCompleteReply(FailureUrl(extraData, defaultUrl))))
      && (v == Ok(false) ==> r == Ok(InvalidSignatureReply(FailureUrl(extraData, defaultUrl))))
      && (v.Err? ==> r == Err(v.error))
  {
  }

  /** A response dictionary with exactly the three acknowledgement keys,
      single-line values and no trailing whitespace in its StatusDetail
      decodes back to itself. */
  lemma ReplyEncodes(reply: Reply)
    requires Encodable(reply)
    ensures Codec.DecodeTransactionResponse(Codec.Acknowledgement(reply)) == Ok(reply)
  {
    EncodableValues(reply);
    Codec.AcknowledgementRoundTrip(reply);
    ReplyRebuilt(reply);
  }

  /** The three values an encodable reply writes are single lines. */
  lemma EncodableValues(reply: Reply)
    requires Encodable(reply)
    ensures Codec.AckValuesSingleLine(reply)
  {
    assert "Status" in reply && "RedirectURL" in reply && "StatusDetail" in reply;
  }

  /** A reply with exactly the three keys is the map built from its values. */
  lemma ReplyRebuilt(reply: Reply)
    requires reply.Keys == {"Status", "StatusDetail", "RedirectURL"}
    ensures reply == map["Status" := GetOr(reply, "Status", ""), "RedirectURL" := GetOr(reply, "RedirectURL", ""),
                         "StatusDetail" := GetOr(reply, "StatusDetail", "")]
  {
  }

  /** A reply the acknowledgement encoding gives back unchanged: the three
      keys, single-line values, and a StatusDetail that does not end in
      whitespace (decoding strips the body). */
  predicate Encodable(reply: Reply)
  {
    && reply.Keys == {"Status", "StatusDetail", "RedirectURL"}
    && (forall k :: k in reply ==> Codec.SingleLine(reply[k]))
    && var d := reply["StatusDetail"]; d == [] || !Text.IsSpace(d[|d| - 1])
  }

  /** Text without control characters below the space is a single line. */
  lemma PrintableSingleLine(s: string)
    requires forall i :: 0 <= i < |s| ==> ' ' <= s[i]
    ensures Codec.SingleLine(s)
  {
    assert forall i :: 0 <= i < |s| ==> s[i] != '\r' && s[i] != '\n';
  }

  lemma NotFoundEncodable(url: string)
    requires Codec.SingleLine(url)
    ensures Encodable(NotFoundReply(url))
  {
    var d := "VendorTxCode did not match any transaction";
    PrintableSingleLine(d);
    assert d[|d| - 1] == 'n';
  }

  lemma InvalidSignatureEncodable(url: string)
    requires Codec.SingleLine(url)
    ensures Encodable(InvalidSignatureReply(url))
  {
    var d := "VPSSignature did not match";
    PrintableSingleLine(d);
    assert d[|d| - 1] == 'h';
  }

  lemma AlreadyCompleteEncodable(url: string)
    requires Codec.SingleLine(url)
    ensures Encodable(AlreadyCompleteReply(url))
  {
    var d := "Transaction already processed";
    PrintableSingleLine(d);
    assert d[|d| - 1] == 'd';
  }

  lemma AcknowledgeEncodable(status: string, url: string)
    requires Codec.SingleLine(url)
    ensures Encodable(AcknowledgeReply(status, url))
  {
  }

  /** Every reply the view gives is encodable when the URLs it may carry
      are single lines. */
  lemma ReplyShape(found: Option<Snapshot>, data: map<string, string>, defaultUrl: string)
    requires Codec.SingleLine(defaultUrl)
    requires found.Some? ==> Codec.SingleLine(SuccessUrl(found.value.extraData, defaultUrl))
    requires found.Some? ==> Codec.SingleLine(FailureUrl(found.value.extraData, defaultUrl))
    requires Outcome(found, data, defaultUrl).Ok?
    ensures Encodable(Outcome(found, data, defaultUrl).value)
  {
    if found.None? {
      NotFoundEncodable(defaultUrl);
    } else {
      var e := found.value.extraData;
      var failure := FailureUrl(e, defaultUrl);
      if found.value.verdict == Ok(false) {
        InvalidSignatureEncodable(failure);
      } else if found.value.notified {
        AlreadyCompleteEncodable(failure);
      } else {
        var url := if data["Status"] == "OK" then SuccessUrl(e, defaultUrl) else failure;
        AcknowledgeEncodable(data["Status"], url);
      }
    }
  }

  /** Every reply the view gives survives the acknowledgement encoding: the
      body decodes to exactly the reply, provided the URLs it may carry are
      single lines. */
  lemma ReplyRoundTrip(found: Option<Snapshot>, data: map<string, string>, defaultUrl: string)
    requires Codec.SingleLine(defaultUrl)
    requires found.Some? ==> Codec.SingleLine(SuccessUrl(found.value.extraData, defaultUrl))
    requires found.Some? ==> Codec.SingleLine(FailureUrl(found.value.extraData, defaultUrl))
    requires Outcome(found, data, defaultUrl).Ok?
    ensures var reply := Outcome(found, data, defaultUrl).value;
      Codec.DecodeTransactionResponse(Codec.Acknowledgement(reply)) == Ok(reply)
  {
    ReplyShape(found, data, defaultUrl);
    ReplyEncodes(Outcome(found, data, defaultUrl).value);
  }

  class NotificationView {
    /** The incoming request, for `build_absolute_uri`. */
    const request: Models.HttpRequest
    /** The hooks run so far, in order. */
    var hooks: seq<Hook>

    constructor (request: Models.HttpRequest)
      ensures this.request == request && hooks == []
    {
      this.request := request;
      hooks := [];
    }

    /** `get_default_redirect_url`: the site root made absolute. */
    function DefaultRedirectUrl(): string
    {
      request.buildAbsoluteUri("/")
    }

    /** `notification_response(request)`. A record is changed only on the
        recording path, and then its notification date, data and
        acknowledgement are set together; a KeyError for a missing Status
        leaves the record as stored, since it is raised before `save()`. */
    method NotificationResponse(store: Models.TransactionStore, data: map<string, string>,
                                md5: string -> string, now: int)
      returns (r: Result<Reply>)
      requires store.Valid()
      modifies this, Target(store, data)
      ensures r == Outcome(old(Found(store, data, md5)), data, DefaultRedirectUrl())
      ensures LookupKey(data) !in store.records ==> hooks == old(hooks)
      ensures LookupKey(data) in store.records ==>
        var t := store.records[LookupKey(data)];
        if Records(old(Found(store, data, md5)), data) then
          && t.notificationDate == Some(now) && t.notificationData == Some(data)
          && r.Ok? && t.acknowledgementData == Some(r.value)
          && hooks == old(hooks) + [HookFor(data["Status"], LookupKey(data))]
        else
          && unchanged(t) && hooks == old(hooks)
    {
      var key := LookupKey(data);
      if key !in store.records {
        return Ok(NotFoundReply(DefaultRedirectUrl()));
      }
      var t := store.records[key];
      var valid := t.IsValidSignature(data, md5);
      if valid.Err? {
        return Err(valid.error);
      }
      if !valid.value {
        return Ok(InvalidSignatureReply(FailureUrl(t.extraData, DefaultRedirectUrl())));
      }
      if t.notificationDate.Some? {
        return Ok(AlreadyCompleteReply(FailureUrl(t.extraData, DefaultRedirectUrl())));
      }
      if "Status" !in data {
        return Err(KeyError("Status"));
      }
      t.notificationDate := Some(now);
      t.notificationData := Some(data);
      var url: string;
      if data["Status"] == "OK" {
        hooks := hooks + [Success(t.vendorTxId)];
        url := SuccessUrl(t.extraData, DefaultRedirectUrl());
      } else {
        hooks := hooks + [Failure(t.vendorTxId)];
        url := FailureUrl(t.extraData, DefaultRedirectUrl());
      }
      var reply := AcknowledgeReply(data["Status"], url);
      t.acknowledgementData := Some(reply);
      return Ok(reply);
    }

    /** `post(request)`: the response dictionary encoded as the plain-text
        acknowledgement body. */
    method Post(store: Models.TransactionStore, data: map<string, string>, md5: string -> string, now: int)
      returns (r: Result<string>)
      requires store.Valid()
      modifies this, Target(store, data)
      ensures var reply := Outcome(old(Found(store, data, md5)), data, DefaultRedirectUrl());
        && (reply.Err? ==> r == Err(reply.error))
        && (reply.Ok? ==> r == Ok(Codec.Acknowledgement(reply.value)))
      ensures LookupKey(data) !in store.records ==> hooks == old(hooks)
      ensures LookupKey(data) in store.records ==>
        var t := store.records[LookupKey(data)];
        if Records(old(Found(store, data, md5)), data) then
          && t.notificationDate == Some(now) && t.notificationData == Some(data)
          && t.acknowledgementData == Some(Outcome(old(Found(store, data, md5)), data, DefaultRedirectUrl()).value)
          && hooks == old(hooks) + [HookFor(data["Status"], LookupKey(data))]
        else
          && unchanged(t) && hooks == old(hooks)
    {
      var reply := NotificationResponse(store, data, md5, now);
      if reply.Err? {
        return Err(reply.error);
      }
      var body := Codec.EncodeNotificationAcknowledgement(reply.value);
      return Ok(body);
    }
  }
}
