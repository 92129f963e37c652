# django-sagepay in Dafny

A Dafny model of the core of `django_sagepay`, a Django integration for the
Sage Pay Server payment protocol (VPS protocol 2.23), with proofs about it.
It has four parts:

- **Codec** (`django_sagepay/utils.py`). It covers the field truncator, which
  enforces Sage Pay's per-field byte limits and keeps or drops the basket. It
  also covers the colon-delimited basket encoding, the transaction request
  encoder, the `key=value` CRLF response decoder and the notification
  acknowledgement encoder.
- **Utf8** (`utf8_truncate`). It models UTF-8 byte-length truncation over
  Unicode scalar values.
- **Models** (`django_sagepay/models.py`). It covers the transaction record,
  the MD5 signature check over the fixed `HASH_FIELDS` order,
  `ensure_absolute_url` and `start_transaction`. `start_transaction` merges
  the protocol defaults, settings and caller data, makes the URLs absolute,
  truncates and encodes, calls the gateway, decodes the reply, rejects any
  Status but `OK`, and creates the record.
- **Views** (`django_sagepay/views.py`). It models `BaseNotificationView` as a
  class whose `NotificationResponse` method changes the stored record.

`Base` and `Text` hold shared datatypes (`Value`, `Result`, the Python
exceptions as `Error`) and string helpers (split, join, strip, count).

The model follows the code as written, including these details:

- The address limits in `ADDRESS_FIELD_LENGTHS` are keyed by names with a
  trailing space (`'Firstnames '`, …). Only `Description`, `CustomerEMail`,
  `BillingSurname` and `DeliverySurname` are ever truncated.
- A basket given as a non-empty list of items makes `truncate_overlong_fields`
  fail with AttributeError; an empty list is falsy and is dropped. A text basket that fits is kept and then fails in
  `encode_basket`. An overlong text basket is dropped. So no request that
  gets through ever carries a basket (`Models.NoBasketReachesGateway`).
- The scheme test in `ensure_absolute_url` is case-sensitive.
- A notification without `Status` raises KeyError before `save()`, so the
  stored record is left as it was.

The following are parameters rather than implementations:

- the MD5 digest, a function from text to its lower-case hex digest;
- the HTTP exchange with the gateway, a function from the encoded request to
  a transport failure or the response text;
- the clock, the generated transaction id and the settings dictionary;
- money formatting and `unicode()` rendering of non-text values, as `Formats`;
- `build_absolute_uri`, a function field of `HttpRequest`.

## Model

| member | source | states |
|---|---|---|
| Utf8.Truncate | django_sagepay/utils.py:67-77 | the result is a prefix of the input whose UTF-8 encoding is at most `max_length` bytes, and when it is shorter than the input the next character would not fit: it is the longest such prefix |
| Utf8.TruncateUnchangedIff | django_sagepay/utils.py:67-77 | truncation leaves a string unchanged exactly when its UTF-8 encoding already fits |
| Utf8.TruncateIdempotent | django_sagepay/utils.py:67-77 | truncating twice to the same limit is truncating once |
| Utf8.TruncateBytes | django_sagepay/utils.py:74-77 | the first `max_length` encoded bytes are the result's encoding followed by fewer bytes than one character: the partial character that decoding with 'ignore' drops |
| Codec.Sanitize | django_sagepay/utils.py:12-13 | each invalid character (control character, DEL, Latin-1 upper-half character or colon) becomes a space, every valid character stays in place, and the length is kept |
| Codec.EncodeBasket | django_sagepay/utils.py:82-92 | the loop builds the basket text: the item count, then six sanitised fields per item, joined by colons |
| Codec.BasketHeader | django_sagepay/utils.py:82-92 | every basket, the empty one included, has 1 + 6N fields with N in decimal first; the empty basket encodes as "0" |
| Codec.BasketLayout | django_sagepay/utils.py:82-92 | a basket of N items has 1 + 6N fields; the first is N in decimal and field 1+6i+j is item i's j-th key sanitised, or '' when missing |
| Codec.BasketDelimiters | django_sagepay/utils.py:87-91 | the basket text has exactly 6N colons, and splitting it on ':' gives back exactly the fields |
| Codec.BasketFieldsValid | django_sagepay/utils.py:84-90 | no basket field contains an invalid character |
| Codec.BasketHasNoControlCharacters | django_sagepay/utils.py:87-91 | every character of the basket text is a delimiter colon or a valid character |
| Codec.FieldLengthsBuilt | django_sagepay/utils.py:15-37 | the limit table is the base limits followed by the address limits prefixed with 'Billing' and then with 'Delivery' |
| Codec.FieldKeysDistinct | django_sagepay/utils.py:15-37 | no key occurs twice in the limit table |
| Codec.LimitOfEntry | django_sagepay/utils.py:60-62 | looking up any key of the table gives that entry's limit |
| Codec.SpacedKeys | django_sagepay/utils.py:22-37 | every table key except Description, CustomerEMail, BillingSurname and DeliverySurname contains a space |
| Codec.UnspacedKeysUnlimited | django_sagepay/utils.py:59-64 | a field name without a space that is not one of those four has no limit |
| Codec.EffectiveLimits | django_sagepay/utils.py:15-37 | the four reachable limits are 100, 255, 20 and 20 |
| Codec.LimitFieldsLoop | django_sagepay/utils.py:59-65 | the loop over the table computes the sequential application of the limits, failing at the first present non-text field |
| Codec.ApplyLimitsAll | django_sagepay/utils.py:59-65 | with distinct keys, applying the limits one after another equals limiting every field by its own entry at once |
| Codec.TruncateOverlongFields | django_sagepay/utils.py:39-65 | the truncator returns the specification `Truncated(data)`, which the lemmas below characterise |
| Codec.TruncatedFailure | django_sagepay/utils.py:56-65 | truncation fails, always with AttributeError, exactly when a truthy non-text basket is given or a limited field holds a non-text value |
| Codec.TruncatedBasket | django_sagepay/utils.py:56-58 | the basket is kept, unchanged, exactly when it is non-empty text whose encoding fits 7500 bytes; otherwise it is removed |
| Codec.TruncatedFields | django_sagepay/utils.py:59-65 | every other field keeps its presence; a limited one becomes its UTF-8 truncation to its limit and an unlimited one is unchanged |
| Codec.VendorTxCodeUntouched | django_sagepay/utils.py:59-65 | VendorTxCode passes through truncation unchanged |
| Codec.LimitFieldsIdempotent | django_sagepay/utils.py:59-65 | limiting already limited fields changes nothing |
| Codec.TruncatedIdempotent | django_sagepay/utils.py:39-65 | truncating a truncated request changes nothing |
| Codec.EncodeTransactionRequest | django_sagepay/utils.py:94-104 | the loop over the fields computes the encoded request, failing when Amount is missing or not a number, or when a truthy basket is not a list of items |
| Codec.EncodedRequestFields | django_sagepay/utils.py:94-104 | the encoded keys are the input keys minus a falsy basket; Amount is the formatted number, the basket is its encoding, and text fields are unchanged |
| Codec.ParseLinesFails | django_sagepay/utils.py:107-108 | decoding fails, with ValueError, exactly when some line has no '=' |
| Codec.ParseLinesLastWins | django_sagepay/utils.py:107-108 | every line's key is in the result and, when no later line repeats it, maps to the text after the first '=' |
| Codec.ParseLinesKeys | django_sagepay/utils.py:107-108 | every key of the result comes from some line |
| Codec.DecodeEmptyBody | django_sagepay/utils.py:107-108 | a blank or whitespace-only body fails with ValueError |
| Codec.EncodeNotificationAcknowledgement | django_sagepay/utils.py:110-115 | the loop builds the acknowledgement body |
| Codec.AcknowledgementText | django_sagepay/utils.py:110-115 | the body is Status, RedirectURL and StatusDetail lines in that order, joined by CRLF, with '' for missing keys |
| Codec.AcknowledgementLines | django_sagepay/utils.py:110-115 | when the three values it writes are single lines, the body splits on CRLF into exactly those three lines; other keys are not read |
| Codec.AcknowledgementRoundTrip | django_sagepay/utils.py:107-115 | decoding an acknowledgement whose three written values are single lines, with no trailing whitespace in StatusDetail, gives back its three fields |
| Models.HashFieldValue | django_sagepay/models.py:59-66 | Vendor comes from the stored request, SecurityKey from the stored response, every other field from the notification; missing gives '', and a non-text Vendor is a TypeError |
| Models.Transaction.constructor | django_sagepay/models.py:33-55 | a new record has its id, request, response, extra data and creation time, and no notification date, data or acknowledgement |
| Models.Transaction.IsValidSignature | django_sagepay/models.py:57-68 | the method computes the verdict: the upper-cased MD5 of the hash fields' values, compared with VPSSignature |
| Models.SignatureInputAppend | django_sagepay/models.py:59-66 | the digest input of two field lists is the concatenation of their inputs, and the first error wins |
| Models.SignatureInputSpelledOut | django_sagepay/models.py:23-26 | the digest input is the notification's first four hash fields, the stored Vendor, AVSCV2, the stored SecurityKey, then the remaining ten notification fields |
| Models.SignatureIgnoresOtherFields | django_sagepay/models.py:57-68 | two notifications that agree on the notification-sourced hash fields and on VPSSignature get the same verdict |
| Models.LowercaseOrMissingSignatureRejected | django_sagepay/models.py:67-68 | a missing VPSSignature, or one with a lower-case letter, never matches |
| Models.EnsureAbsoluteUrl | django_sagepay/models.py:131-142 | an http:// or https:// URL is returned unchanged; it fails with SagePayError, with no status, exactly when the URL is relative and there is neither a non-empty base nor a request |
| Models.RelativeUrlJoinsBase | django_sagepay/models.py:138-139 | a relative URL with a base ignores the request and becomes the base without trailing slashes followed by the URL; no slash is added, so a URL starting with one '/' meets the base at a single slash |
| Models.AbsoluteBaseGivesAbsolute | django_sagepay/models.py:131-142 | with an absolute base the result is absolute, and absolutising it again changes nothing |
| Models.SchemeTestIsCaseSensitive | django_sagepay/models.py:132 | 'HTTP://a/' counts as relative and is prefixed with the base |
| Models.MergedData | django_sagepay/models.py:74-83 | caller data overrides settings, which override the protocol defaults; no key is lost |
| Models.VendorTxCodePrecedence | django_sagepay/models.py:74-83 | VendorTxCode is the caller's, else the settings', else the generated id |
| Models.WithAbsoluteNotificationUrl | django_sagepay/models.py:85-86 | a missing NotificationURL is a KeyError and a non-text one an AttributeError; a text one succeeds exactly when it can be absolutised, failing with that error otherwise, and on success only NotificationURL changes, to its absolutised text |
| Models.ExtraUrlsMadeAbsolute | django_sagepay/models.py:87-90 | only success_url and failure_url are absolutised, when present; the step fails exactly when one of them cannot be |
| Models.MakeExtraUrlsAbsolute | django_sagepay/models.py:87-90 | the loop computes that absolutised extra data |
| Models.NotificationData | django_sagepay/models.py:73-86 | the merged data with its NotificationURL absolutised |
| Models.TruncateAndEncode | django_sagepay/models.py:94-95 | the truncated data and its encoding |
| Models.PrepareTransaction | django_sagepay/models.py:71-95 | the steps before the HTTP call, chained with the first error stopping them |
| Models.PreparedVendorTxCode | django_sagepay/models.py:74-95 | the request that is sent keeps the merged VendorTxCode |
| Models.NoBasketReachesGateway | django_sagepay/models.py:94-95 | whenever truncation and encoding succeed, the encoded request has no Basket |
| Models.NonOkStatusRejected | django_sagepay/models.py:114-117 | when StatusDetail is present, any gateway Status but 'OK' ('OK REPEATED' included) raises SagePayError carrying StatusDetail and Status, and creates no record (without StatusDetail, `AfterResponse` gives KeyError) |
| Models.AfterResponseCreatesOnOk | django_sagepay/models.py:108-128 | a record is created exactly when Status is 'OK', VendorTxCode is present and its id is unused, holding that id, the sent data, the response and the extra data; the result is then NextURL, or a KeyError when NextURL is missing |
| Models.StartedCreatesOnOk | django_sagepay/models.py:71-128 | a successful start always creates a record; a created record holds the prepared request, the decoded 'OK' response and the merged VendorTxCode as its id; conversely, a prepared request whose gateway reply decodes to Status 'OK' under an unused id creates exactly that record and returns NextURL when present |
| Models.TransactionStore.Create | django_sagepay/models.py:121-126 | creating adds a fresh record under a new id and changes no other entry; a taken id is an IntegrityError and the store is unchanged |
| Models.Conclude | django_sagepay/models.py:108-128 | from the decoded response on, the store gains exactly the record the decision creates (its id, request, response and extra data, created at `now`, with no notification date, data or acknowledgement) and nothing else, and the result is the decision's |
| Models.StartTransaction | django_sagepay/models.py:71-128 | the whole operation: the result is the one specified, and the store gains exactly the created record, with its whole initial state as in Conclude, or is unchanged |
| Views.AcknowledgedIffRecorded | django_sagepay/views.py:24-54 | the reply is an acknowledgement with empty StatusDetail exactly when the record was found, the signature valid, no earlier notification recorded and Status present |
| Views.SignatureCheckedFirst | django_sagepay/views.py:33-34 | an invalid signature gets INVALID with the failure URL, whether or not the record was already notified, and records nothing |
| Views.ReplayRefused | django_sagepay/views.py:37-38 | once a notification is recorded, a later valid one gets ERROR 'Transaction already processed' with the failure URL and records nothing |
| Views.AcknowledgementContents | django_sagepay/views.py:43-125 | a recorded notification is answered OK, or INVALID for Status 'ERROR', redirecting to the success URL for 'OK' and to the failure URL otherwise |
| Views.NotFoundEncodable | django_sagepay/views.py:56-61 | the not-found reply survives the acknowledgement encoding |
| Views.InvalidSignatureEncodable | django_sagepay/views.py:63-68 | the invalid-signature reply survives the acknowledgement encoding |
| Views.AlreadyCompleteEncodable | django_sagepay/views.py:70-75 | the already-complete reply survives the acknowledgement encoding |
| Views.AcknowledgeEncodable | django_sagepay/views.py:77-87 | the acknowledgement reply survives the acknowledgement encoding |
| Views.ReplyEncodes | django_sagepay/utils.py:107-115 | a three-key reply with single-line values decodes back to itself |
| Views.ReplyShape | django_sagepay/views.py:56-87 | every reply the view gives has the three keys and single-line values when its URLs are single lines |
| Views.ReplyRoundTrip | django_sagepay/views.py:19-22 | every body the view sends decodes back to exactly its reply |
| Views.NotificationView.NotificationResponse | django_sagepay/views.py:24-54 | the reply is the specified one; only a recorded notification changes the record, setting date, data and acknowledgement and running exactly one hook for the posted VendorTxCode; otherwise the record and the hook log are unchanged |
| Views.NotificationView.Post | django_sagepay/views.py:19-22 | the body is the encoded reply, or the view's error; the record and the hook log change exactly as in NotificationResponse: set and one hook appended on the recording path, unchanged otherwise |

## Left out

- The HTTP call (`requests.post`, `raise_for_status`) is a function parameter. A `RequestException` is a `RequestFailed` outcome carrying its repr; the traceback is not modelled.
- The ORM is a map from vendor transaction id to record objects. `select_for_update`, transactions, `save()` and concurrent notifications are not modelled.
- JSONField serialisation is not modelled. Stored request, response and extra data are Dafny values.
- MD5 is a function parameter, so the digest itself is not modelled.
- Models.Transaction.IsValidSignature: under Python 2, `md5.update` of non-ASCII text raises UnicodeEncodeError. That error path is not modelled; values are hashed as text.
- `urlencode` and the `.encode('utf8')` of each value are not modelled. `Codec.EncodeTransactionRequest` stops at the dictionary of text values.
- `format_money_value` and `unicode()` of non-text values are the `Formats` parameter. Codec.EncodedRequestFields does not state the two-decimal formatting.
- Codec.Sanitize: item values are taken as already rendered text, so `unicode()` of item values is not modelled.
- The generated id (`b32encode(uuid4())`), `timezone.now()` and `settings` are parameters.
- `build_absolute_uri` is a function field of the request. The lazy-URL cast to `unicode` is the identity on text.
- Models.StartTransaction: `start_transaction` updates the caller's `extra_data` dictionary in place. The model returns the updated map inside the result, so aliasing with the caller is not modelled. The mutable default argument `extra_data={}` is not modelled either.
- `max_length=40` on `vendor_tx_id` and `auto_now_add` are not enforced. The creation time is the `now` parameter.
- Views.NotificationView.NotificationResponse: the hooks only append to a log. The base `handle_transaction_success` raising NotImplementedError, and any effect an overriding hook has on the record, are not modelled.
- POST data is a `map<string, string>`. Django's `QueryDict` multi-values are not modelled.
- CSRF exemption (`dispatch`), `HttpResponse` and its content type are not modelled.
- Python 2's byte strings and `str`/`unicode` mixing are not modelled. All text is `seq<char>` over Unicode scalar values.
