# simple_spark in Dafny

A model of the core of `simple_spark`, a Ruby client for the SparkPost
e-mail delivery REST API. It has three parts:

- **The client** (`SimpleSpark::Client`). It resolves its configuration: the API key comes from the argument or the `SPARKPOST_API_KEY` environment variable, and the host and base path fall back to defaults. Its `call` checks the verb and builds the request. The base path is prefixed to the path, the default headers are added, and a body or query is attached only when it is non-empty. `process_response` turns a response into a result or an error, and `url_encode` percent-encodes path segments.
- **The exceptions** (`SimpleSpark::Exceptions`). An HTTP status is classified through the `status_codes` table, and an error message is rendered from the API's `errors` list.
- **The resource façades** (templates, legacy templates, sending domains, webhooks, recipient lists, suppression list, inbound domains, account, message events, events). Each façade method is modelled as a function that builds a `RequestSpec`, which holds the verb, path, body Hash and query Hash it hands to `call`. Lemmas then follow each request through `Client.Assemble` or argument binding.

The modules, file by file:

| file | module | models |
|---|---|---|
| `wrappers.dfy` | `Wrappers` | `Option`, `Result` |
| `json_value.dfy` | `JsonValue` | JSON values, Ruby truthiness, `true.to_s`/`false.to_s` |
| `decimal.dfy` | `Decimal` | `Integer#to_s` and a parser that inverts it |
| `percent_encoding.dfy` | `PercentEncoding` | `Client#url_encode` and its decoder |
| `requests.dfy` | `Requests` | verbs, method Symbols, `RequestSpec`, splitting a path at `?` |
| `exceptions.dfy` | `Exceptions` | `status_codes`, `fail_with_exception_for_status` |
| `client.dfy` | `ClientCore` | `initialize`, `call`, `process_response`, `default_headers`, argument binding |
| the rest | one per façade | the façade methods |

The transport (Excon) is a function parameter `send` from the assembled request to the response. `Client.Call` returns the request it sent, if any, next to the result.

## Model

| member | source | states |
|---|---|---|
| JsonValue.BoolText | lib/simple_spark/templates.rb:43 | interpolating a boolean gives `"true"` or `"false"`, and the text tells which |
| Decimal.DigitChar | lib/simple_spark/exceptions.rb:18 | a digit value renders as a decimal digit character |
| Decimal.DigitValue | lib/simple_spark/exceptions.rb:18 | reading a digit character gives the value that renders back to it |
| Decimal.Digits | lib/simple_spark/exceptions.rb:18 | a natural number renders as a non-empty digit string with no leading zero |
| Decimal.ToS | lib/simple_spark/exceptions.rb:18 | `Integer#to_s` is non-empty, starts with `-` exactly for negative numbers, and is digits after that, with no leading zero and never `-0` |
| Decimal.DigitsValueOfDigits | lib/simple_spark/exceptions.rb:18 | reading back the digits of `n` gives `n` |
| Decimal.ParseToS | lib/simple_spark/endpoints/recipient_lists.rb:25 | parsing `n.to_s` gives back `n`, for every integer |
| Decimal.ToSInjective | lib/simple_spark/exceptions.rb:18 | two integers have the same `to_s` exactly when they are equal |
| PercentEncoding.HexDigit | lib/simple_spark/client.rb:46 | `%02X` emits a digit `0`-`9` or an upper-case `A`-`F` that reads back as its value, and is never `_`, `-` or `.` |
| PercentEncoding.HexValueOfDigit | lib/simple_spark/client.rb:46 | each emitted hex digit reads back as its value |
| PercentEncoding.EncodeByte | lib/simple_spark/client.rb:46 | a byte in `[A-Za-z0-9_.-]` stays as its character; any other byte becomes `%` and two upper-case hex digits holding its high and low nibble |
| PercentEncoding.UrlEncode | lib/simple_spark/client.rb:45-47 | the output holds only kept characters and `%` |
| PercentEncoding.Chars | lib/simple_spark/client.rb:46 | the characters of a byte string, one per byte |
| PercentEncoding.Ascii | lib/simple_spark/client.rb:46 | the bytes of ASCII text are its character codes |
| PercentEncoding.UrlEncodeLength | lib/simple_spark/client.rb:46 | the output is the input length plus two characters per replaced byte |
| PercentEncoding.UrlEncodeAppend | lib/simple_spark/client.rb:46 | `gsub` works byte by byte, so encoding distributes over concatenation |
| PercentEncoding.UrlEncodeKeepsUnreserved | lib/simple_spark/client.rb:46 | input made only of kept bytes comes out unchanged |
| PercentEncoding.DecodeEncodedByte | lib/simple_spark/client.rb:46 | decoding one encoded byte, whatever follows it, yields that byte and resumes on the rest |
| PercentEncoding.DecodeUrlEncode | lib/simple_spark/client.rb:45-47 | percent-decoding undoes `url_encode` for every byte string |
| PercentEncoding.UrlEncodeInjective | lib/simple_spark/client.rb:45-47 | two byte strings encode alike exactly when they are equal |
| PercentEncoding.UrlEncodeIsSegment | lib/simple_spark/client.rb:45-47 | an encoded value holds no `/` or `?`, so it stays one path segment, and it decodes to the value |
| PercentEncoding.PrefixedEncodedSegment | lib/simple_spark/endpoints/sending_domains.rb:36-37 | a resource prefix followed by an encoded identifier is the prefix and one segment that decodes to the identifier; sending domains, inbound domains and the suppression list build their paths this way |
| PercentEncoding.UrlEncodeSpaceAndTilde | lib/simple_spark/client.rb:46 | a space becomes `%20`, and `~` is encoded as `%7E` even though it is unreserved in the URI standard |
| PercentEncoding.UrlEncodeDomainExample | lib/simple_spark/endpoints/sending_domains.rb:36 | a plain domain such as `example1.com` is sent as is |
| PercentEncoding.UrlEncodeSlashExample | lib/simple_spark/endpoints/sending_domains.rb:36 | `a/b` becomes the single segment `a%2Fb` |
| PercentEncoding.UrlEncodeAtSign | lib/simple_spark/endpoints/suppression_list.rb:35 | between two runs of kept bytes, only the `@` is encoded, as `%40` |
| PercentEncoding.UrlEncodeEmailExample | lib/simple_spark/endpoints/suppression_list.rb:35 | `rcpt_1@example.com` becomes `rcpt_1%40example.com` |
| PercentEncoding.UnreservedText | lib/simple_spark/client.rb:46 | text made of letters, digits, `_`, `-` and `.` is ASCII, and its bytes are all kept |
| Requests.SymbolOf | lib/simple_spark/client.rb:21 | every verb a façade uses is passed as a Symbol |
| Requests.SymbolOfInjective | lib/simple_spark/client.rb:21 | distinct verbs have distinct Symbols |
| Requests.Bare | lib/simple_spark/client.rb:20 | a call with only verb and path leaves body and query at their defaults `{}` |
| Requests.OptionalQuery | lib/simple_spark/endpoints/webhooks.rb:17 | an optional argument's query Hash is empty exactly when the argument is nil, and otherwise holds just that key |
| Requests.PathPart | lib/simple_spark/templates.rb:43 | what comes before a `?` is a prefix of the path with no `?` in it |
| Requests.SplitAtQuery | lib/simple_spark/templates.rb:43 | appending `?` and a query to a path without `?` splits back into that path and that query |
| Requests.NoQueryPart | lib/simple_spark/templates.rb:42 | a path without `?` has no query part |
| Exceptions.StatusCodes | lib/simple_spark/exceptions.rb:22-30 | the table has a `default` entry, UnprocessableEntity, and never yields InvalidConfiguration |
| Exceptions.KindForStatus | lib/simple_spark/exceptions.rb:18 | 400 is BadRequest, 404 NotFound, 420 ThrottleLimitExceeded, and every other status UnprocessableEntity |
| Exceptions.Render | lib/simple_spark/exceptions.rb:19 | an error renders as its message, followed by `: ` and the description when there is one |
| Exceptions.Message | lib/simple_spark/exceptions.rb:19 | no errors render as the empty string, and one error as itself |
| Exceptions.FailWithExceptionForStatus | lib/simple_spark/exceptions.rb:17-20 | the raised error has the status's kind (never InvalidConfiguration), carries the errors list and has the joined message |
| Exceptions.MessageAppend | lib/simple_spark/exceptions.rb:19 | the message of two non-empty lists is their messages joined by `, ` |
| Exceptions.MessageIgnoresCodes | lib/simple_spark/exceptions.rb:19 | the message depends only on each error's message and description, never on its code |
| Exceptions.MessageIgnoresStatus | lib/simple_spark/exceptions.rb:19 | the message does not depend on the status |
| Exceptions.ExceptionsSpecExample | spec/simple_spark/exceptions_spec.rb:5-8 | for the test's input the code raises BadRequest with message `Test Error Message`, not the message the test expects |
| ClientCore.Resolve | lib/simple_spark/client.rb:7-16 | the key is the argument, else `SPARKPOST_API_KEY`, and is missing exactly when both are absent (InvalidConfiguration, "You must provide a SparkPost API key"); host and base path are the argument or the default; debug is kept |
| ClientCore.EnvironmentOnlySuppliesKey | lib/simple_spark/client.rb:8-10 | the environment changes the configuration only through the API key |
| ClientCore.ClientSpecHostExample | spec/simple_spark/client_spec.rb:24-28 | with `SPARKPOST_API_HOST` set, the host is still the default, not the variable's value the test expects |
| ClientCore.CheckMethod | lib/simple_spark/client.rb:21 | the verb passes exactly for `:get`, `:post`, `:put`, `:delete`, giving the verb of that Symbol; anything else fails with InvalidConfiguration carrying `{ method: m }` |
| ClientCore.CheckMethodOfSymbol | lib/simple_spark/client.rb:21 | every verb's own Symbol passes the check as that verb |
| ClientCore.UnsupportedMethodExamples | lib/simple_spark/client.rb:21 | `:patch` and the String `"get"` are refused, and the error carries the rejected method |
| ClientCore.ProcessResponse | lib/simple_spark/client.rb:33-42 | 204 gives `true`; otherwise the result fails exactly when `errors` is present, with the error its status classifies; a success is always truthy, the `results` when truthy and else `true` |
| ClientCore.ErrorStatusExamples | lib/simple_spark/client.rb:37-38 | error responses with 400, 404 and 420 raise their own kinds, while 429 and 500 raise UnprocessableEntity |
| ClientCore.Bind | lib/simple_spark/client.rb:20 | a call site binds exactly when it gives `call` two to four positional arguments, with keyword arguments gathered into one trailing Hash; the verb passes the check, and body and query are the third and fourth arguments or `{}` |
| ClientCore.KeywordCallsNeverBind | lib/simple_spark/client.rb:20 | a call site that passes only keywords gives `call` one argument where two are required, so it never binds |
| ClientCore.Client.constructor | lib/simple_spark/client.rb:16-17 | the new client holds the resolved settings |
| ClientCore.Client.New | lib/simple_spark/client.rb:7-18 | construction succeeds exactly when `Resolve` does, and a fresh client then holds the resolved settings; failure raises `Resolve`'s error |
| ClientCore.Client.DefaultHeaders | lib/simple_spark/client.rb:49-55 | exactly three headers: `simple_spark/VERSION` as user agent, the JSON content type, and the raw API key as authorization |
| ClientCore.Client.Assemble | lib/simple_spark/client.rb:23-27 | the path is the base path followed by the path, the headers are the defaults, and a body (the encoded Hash) or query is present exactly when its Hash is non-empty |
| ClientCore.Client.DisassembleAssemble | lib/simple_spark/client.rb:23-27 | dropping an empty body or query loses nothing: the assembled request gives back the request description |
| ClientCore.Client.Call | lib/simple_spark/client.rb:20-31 | an unsupported method raises before anything is sent; otherwise exactly the assembled request is sent and the result is `process_response` of its response |
| ClientCore.Client.Submit | lib/simple_spark/client.rb:20-31 | any request description sends its assembled request and returns the processed response |
| EndpointTemplates.List | lib/simple_spark/endpoints/templates.rb:19-21 | GET `templates` with no body or query |
| EndpointTemplates.Create | lib/simple_spark/endpoints/templates.rb:29-31 | POST `templates` with the values as body |
| EndpointTemplates.Retrieve | lib/simple_spark/endpoints/templates.rb:40-44 | GET `templates/<id>`; the query holds `draft` exactly when a draft flag is given |
| EndpointTemplates.Update | lib/simple_spark/endpoints/templates.rb:53-55 | PUT on the literal path `templates/#{id}`, the values as body, and `update_published` always in the query |
| EndpointTemplates.Preview | lib/simple_spark/endpoints/templates.rb:66-69 | POST on the literal path `templates/#{id}/preview`, the substitutions as body, and `draft` in the query exactly when given |
| EndpointTemplates.Delete | lib/simple_spark/endpoints/templates.rb:75-77 | DELETE `templates/<id>` with no body or query |
| EndpointTemplates.UpdateAndPreviewIgnoreId | lib/simple_spark/endpoints/templates.rb:53-69 | as written, `update` and `preview` build the same request for every id |
| EndpointTemplates.UpdateMissesRetrievedTemplate | lib/simple_spark/endpoints/templates.rb:40-55 | as written, `update` addresses the template `retrieve` reads only for the id spelled `#{id}` |
| EndpointTemplates.PreviewMissesItsTemplate | lib/simple_spark/endpoints/templates.rb:40-68 | as written, `preview` addresses the preview of the template `retrieve` reads only for the id spelled `#{id}` |
| EndpointTemplates.AssembledTemplateRequests | lib/simple_spark/endpoints/templates.rb:40-77 | through the client, `update` with the default flag sends `update_published=false`, `retrieve` sends a query exactly when a draft flag is given, and `delete` sends neither body nor query |
| EndpointTemplates.UpdateInterpolated | lib/simple_spark/endpoints/templates.rb:53-55 | corrected `update`: it addresses the template `retrieve` reads |
| EndpointTemplates.PreviewInterpolated | lib/simple_spark/endpoints/templates.rb:66-69 | corrected `preview`: it addresses that template's preview |
| EndpointTemplates.InterpolatedPathsSeparateIds | lib/simple_spark/endpoints/templates.rb:53-69 | with the corrected methods, two ids share an update or preview path exactly when they are equal |
| EndpointTemplates.CallSitesBind | lib/simple_spark/endpoints/templates.rb:19-77 | every positional call site hands `call` its whole request |
| LegacyTemplates.DraftSuffixSplits | lib/simple_spark/templates.rb:43 | a path with a draft suffix splits back into the path and `draft=<flag>` |
| LegacyTemplates.FlagSuffixSplits | lib/simple_spark/templates.rb:54 | a path with the `update_published` suffix splits back into the path and `update_published=<flag>` |
| LegacyTemplates.List | lib/simple_spark/templates.rb:18-20 | GET `templates` with no body or query |
| LegacyTemplates.Create | lib/simple_spark/templates.rb:26-28 | POST `templates` with the values as body |
| LegacyTemplates.Retrieve | lib/simple_spark/templates.rb:41-45 | GET with no query Hash; for an id without `?` the path is `templates/<id>`, and its query text is `draft=<flag>` exactly when a flag is given |
| LegacyTemplates.Update | lib/simple_spark/templates.rb:53-56 | PUT with the values as body; for an id without `?` the path is `templates/<id>` and its query text is always `update_published=<flag>` |
| LegacyTemplates.Preview | lib/simple_spark/templates.rb:66-70 | POST with the values as body; for an id without `?` the path is `templates/<id>/preview` with the draft query text when given |
| LegacyTemplates.Delete | lib/simple_spark/templates.rb:78-80 | DELETE `templates/<id>` with no body or query |
| LegacyTemplates.RetrieveMatchesEndpoint | lib/simple_spark/templates.rb:41-45 | the legacy `retrieve` puts the draft flag into the path where the endpoint version passes it as a query Hash, and without a flag the two agree |
| LegacyTemplates.UpdateAddressesItsTemplate | lib/simple_spark/templates.rb:53-56 | the legacy `update` addresses the template `retrieve` reads |
| LegacyTemplates.PathsForEveryId | lib/simple_spark/templates.rb:41-70 | for every id, `?` included, `retrieve`, `update` and `preview` append their query text to the template's own path |
| LegacyTemplates.CallSitesBind | lib/simple_spark/templates.rb:18-80 | every positional call site hands `call` its whole request, with the flags inside the path |
| SendingDomains.List | lib/simple_spark/endpoints/sending_domains.rb:19-21 | GET `sending-domains` |
| SendingDomains.Create | lib/simple_spark/endpoints/sending_domains.rb:27-29 | POST `sending-domains` with the values as body |
| SendingDomains.Retrieve | lib/simple_spark/endpoints/sending_domains.rb:35-38 | GET on the one-segment path that decodes to the domain |
| SendingDomains.Update | lib/simple_spark/endpoints/sending_domains.rb:45-48 | PUT with the values as body on the one-segment path that decodes to the domain |
| SendingDomains.Verify | lib/simple_spark/endpoints/sending_domains.rb:60-63 | POST on `sending-domains/<segment>/verify`, where the segment decodes to the domain |
| SendingDomains.Delete | lib/simple_spark/endpoints/sending_domains.rb:68-71 | DELETE on the one-segment path that decodes to the domain |
| SendingDomains.SamePathPerDomain | lib/simple_spark/endpoints/sending_domains.rb:35-71 | retrieve, update and delete share one path per domain, and different domains get different paths |
| SendingDomains.VerbatimDomain | lib/simple_spark/endpoints/sending_domains.rb:36-37 | a domain made only of kept bytes appears in the path verbatim |
| SendingDomains.SlashDomainExample | lib/simple_spark/endpoints/sending_domains.rb:36-37 | the domain `a/b` is sent as `sending-domains/a%2Fb` |
| SendingDomains.AssembledRetrieve | lib/simple_spark/endpoints/sending_domains.rb:35-38 | through the client, `retrieve` requests the base path, the prefix and the encoded domain, with neither body nor query |
| SendingDomains.SentPaths | lib/simple_spark/endpoints/sending_domains.rb:35-71 | the paths sent are the prefix followed by exactly `url_encode` of the domain, and `/verify` for `verify` |
| SendingDomains.CallSitesBind | lib/simple_spark/endpoints/sending_domains.rb:19-71 | every positional call site hands `call` its whole request |
| Webhooks.List | lib/simple_spark/endpoints/webhooks.rb:16-19 | GET `webhooks`; the query holds `timezone` exactly when one is given |
| Webhooks.Create | lib/simple_spark/endpoints/webhooks.rb:24-26 | POST `webhooks` with the values as body |
| Webhooks.Retrieve | lib/simple_spark/endpoints/webhooks.rb:32-34 | GET `webhooks/<id>` |
| Webhooks.Update | lib/simple_spark/endpoints/webhooks.rb:40-42 | PUT `webhooks/<id>` with the values as body |
| Webhooks.Validate | lib/simple_spark/endpoints/webhooks.rb:47-49 | POST `webhooks/<id>/validate` with no body |
| Webhooks.BatchStatus | lib/simple_spark/endpoints/webhooks.rb:55-58 | GET `webhooks/<id>/batch-status`; the query holds `limit` exactly when one is given |
| Webhooks.Samples | lib/simple_spark/endpoints/webhooks.rb:64-67 | GET `webhooks/events/samples`; the query holds `events` exactly when given |
| Webhooks.Delete | lib/simple_spark/endpoints/webhooks.rb:72-74 | DELETE `webhooks/<id>` |
| Webhooks.AssembledWebhookRequests | lib/simple_spark/endpoints/webhooks.rb:16-67 | through the client, `validate` sends no body, and each optional argument produces a query exactly when it is given |
| Webhooks.IdsAreNotEncoded | lib/simple_spark/endpoints/webhooks.rb:32-34 | a webhook id is placed in the path verbatim, without encoding |
| Webhooks.CallSitesBind | lib/simple_spark/endpoints/webhooks.rb:16-74 | every positional call site hands `call` its whole request |
| RecipientLists.Compact | lib/simple_spark/endpoints/recipient_lists.rb:35 | `Hash#compact` keeps exactly the non-nil entries, unchanged |
| RecipientLists.List | lib/simple_spark/endpoints/recipient_lists.rb:15-17 | GET `recipient-lists` |
| RecipientLists.Create | lib/simple_spark/endpoints/recipient_lists.rb:24-27 | POST with the values as body; the path is `recipient-lists`, or with a count exactly `recipient-lists?num_rcpt_errors=` followed by the count's canonical decimal text, which parses back to the count |
| RecipientLists.CountSuffixFacts | lib/simple_spark/endpoints/recipient_lists.rb:25-26 | without a count the path is bare; with a count `n` the path is exactly the prefix followed by `n.to_s`, holding `n` as its `num_rcpt_errors` value |
| RecipientLists.CountPathFacts | lib/simple_spark/endpoints/recipient_lists.rb:25-26 | `recipient-lists?num_rcpt_errors=<count>` splits into the bare path and the count text |
| RecipientLists.Retrieve | lib/simple_spark/endpoints/recipient_lists.rb:34-37 | GET `recipient-lists/<id>`; after `compact` the query holds `show_recipients` exactly when it is not nil |
| RecipientLists.Update | lib/simple_spark/endpoints/recipient_lists.rb:44-46 | PUT `recipient-lists/<id>` with the values as body |
| RecipientLists.Delete | lib/simple_spark/endpoints/recipient_lists.rb:51-53 | DELETE `recipient-lists/<id>` |
| RecipientLists.AssembledRecipientListRequests | lib/simple_spark/endpoints/recipient_lists.rb:24-37 | through the corrected dispatch, the default `show_recipients=false` is sent, a nil one is not, and `create` never sends a query Hash |
| RecipientLists.CallSitesDoNotBind | lib/simple_spark/endpoints/recipient_lists.rb:15-53 | as written, each recipient-list call site passes only keywords, so `call` gets one argument and none binds |
| SuppressionList.Search | lib/simple_spark/endpoints/suppression_list.rb:19-21 | GET `suppression-list` with the parameters as query |
| SuppressionList.CreateOrUpdate | lib/simple_spark/endpoints/suppression_list.rb:26-28 | PUT `suppression-list` with the body `{ recipients: .. }` |
| SuppressionList.Retrieve | lib/simple_spark/endpoints/suppression_list.rb:34-37 | GET on the one-segment path that decodes to the email |
| SuppressionList.Delete | lib/simple_spark/endpoints/suppression_list.rb:42-45 | DELETE on the one-segment path that decodes to the email |
| SuppressionList.OnlyAtSignEncoded | lib/simple_spark/endpoints/suppression_list.rb:35-36 | for an address whose parts are kept bytes, the path shows the parts verbatim around `%40` |
| SuppressionList.AssembledSuppressionRequests | lib/simple_spark/endpoints/suppression_list.rb:19-28 | through the corrected dispatch, a default search sends no query, and `create_or_update` sends the wrapped recipients |
| SuppressionList.CallSitesDoNotBind | lib/simple_spark/endpoints/suppression_list.rb:19-45 | as written, each suppression-list call site passes only keywords, so none binds |
| SuppressionList.SentPaths | lib/simple_spark/endpoints/suppression_list.rb:34-45 | the paths are the prefix followed by exactly `url_encode` of the email |
| InboundDomains.List | lib/simple_spark/endpoints/inbound_domains.rb:15-17 | GET `inbound-domains` |
| InboundDomains.Create | lib/simple_spark/endpoints/inbound_domains.rb:22-24 | POST `inbound-domains` with the body `{ domain: d }`, the domain not encoded |
| InboundDomains.Retrieve | lib/simple_spark/endpoints/inbound_domains.rb:30-33 | GET on the one-segment path that decodes to the domain |
| InboundDomains.Delete | lib/simple_spark/endpoints/inbound_domains.rb:38-41 | DELETE on the one-segment path that decodes to the domain |
| InboundDomains.AssembledInboundRequests | lib/simple_spark/endpoints/inbound_domains.rb:22-41 | through the client, `create` always sends its body, while retrieve and delete never send one |
| InboundDomains.SentPaths | lib/simple_spark/endpoints/inbound_domains.rb:30-41 | the paths sent are the prefix followed by exactly `url_encode` of the domain |
| InboundDomains.CallSitesBind | lib/simple_spark/endpoints/inbound_domains.rb:15-41 | every call site binds; `create`'s `domain:` keyword becomes the third argument, the body `{ domain: d }` |
| Account.Retrieve | lib/simple_spark/endpoints/account.rb:18-21 | GET `account`; the query holds `include` exactly when it is given |
| Account.Update | lib/simple_spark/endpoints/account.rb:40-42 | PUT `account` with the values as body |
| Account.AssembledAccountRequests | lib/simple_spark/endpoints/account.rb:18-42 | through the corrected dispatch, `update` with its default `{}` sends no body, and `retrieve` sends a query exactly when `include` is given |
| Account.CallSitesDoNotBind | lib/simple_spark/endpoints/account.rb:18-42 | as written, both account call sites pass only keywords, so neither binds |
| MessageEvents.Samples | lib/simple_spark/endpoints/message_events.rb:17-20 | GET `message-events/events/samples`; the query holds `events` exactly when given |
| MessageEvents.Search | lib/simple_spark/endpoints/message_events.rb:26-28 | GET `message-events` with the parameters as query |
| MessageEvents.AssembledMessageEventRequests | lib/simple_spark/endpoints/message_events.rb:17-28 | through the client, a default search sends no query, neither method sends a body, and `samples` sends a query exactly when events are given |
| MessageEvents.CallSitesBind | lib/simple_spark/endpoints/message_events.rb:17-28 | both positional call sites hand `call` their whole request |
| Events.Samples | lib/simple_spark/endpoints/events.rb:17-20 | GET `events/message/samples`; the query holds `events` exactly when given |
| Events.Search | lib/simple_spark/endpoints/events.rb:26-28 | GET `events/message` with the parameters as query |
| Events.AssembledEventRequests | lib/simple_spark/endpoints/events.rb:17-28 | through the corrected dispatch, neither method sends a body, and `search` sends a query exactly when its parameters are non-empty |
| Events.CallSitesDoNotBind | lib/simple_spark/endpoints/events.rb:17-28 | as written, both events call sites pass only keywords, so neither binds |

## Left out

- The HTTP session (Excon): opening it, the `debug` flag's logging, and sending. The model keeps `debug` in the settings and makes `send` a parameter.
- JSON encoding (`to_json`) and parsing (`JSON.parse`). A body is kept as the Hash it encodes, and a response body as the two keys `process_response` reads. A body that fails to parse, a body that is not a Hash, and an `errors` value that is not an array are not modelled.
- Error items are modelled with a string `message`, an optional integer `code` and an optional string `description`. Ruby interpolates other value types with `to_s`, which is not modelled.
- `SimpleSpark::VERSION` is defined in `lib/simple_spark/version.rb`, which is not part of this model, so its value is left open as a constant.
- Ruby's `nil` and `false` for an absent API key, host or base path are both modelled as `None`. The host and base-path checks at lib/simple_spark/client.rb:13-14 follow a default and can never fire. `ClientCore.Resolve` keeps them, and `ClientCore.Client.New` leaves them out.
- The client's façade accessors (lib/simple_spark/client.rb:57-79) only build façade objects. The model calls the façade functions directly.
- The façades `transmissions`, `metrics`, `relay_webhooks` and `subaccounts`, `lib/simple_spark/transmissions.rb` and `lib/spark_post/snap.rb` are outside this model.
- Template and webhook ids, and recipient-list ids, are strings interpolated as they are. The façades that encode (sending domains, inbound domains, suppression list) take byte strings, since `url_encode` works on the string's raw bytes.
- LegacyTemplates.Retrieve, LegacyTemplates.Update, LegacyTemplates.Preview: `draft` and `update_published` are taken as booleans. lib/simple_spark/templates.rb:43, :54 and :68 interpolate any value with `to_s`, and only the boolean texts `true` and `false` are modelled.
- ClientCore.Bind: a call site is described only by its number of positional arguments and its keyword names. The bound verb, path, body and query are taken from the request description in that order, rather than from the argument values. This matches every call site in the repository, but a call site that passes its arguments in another order is not modelled.
- `num_rcpt_errors.to_i` is modelled on integers only, where `to_i` changes nothing.
- The keyword call sites at lib/simple_spark/endpoints/recipient_lists.rb:36, account.rb:20 and events.rb:19 and :27 name the query `query_values:`. The corrected dispatch (`ClientCore.Client.Submit`) treats it as the query Hash it evidently means.

## Where the tests and the code disagree

The model follows the code in both cases.

- spec/simple_spark/exceptions_spec.rb:7 expects the message `Test Error Message 400 (Error Code: 3005)`. The code at lib/simple_spark/exceptions.rb:19 renders only the message and the optional description, so the message is `Test Error Message`. `Exceptions.ExceptionsSpecExample` and `Exceptions.MessageIgnoresCodes` state this.
- spec/simple_spark/client_spec.rb:24-28 expects the host to come from `SPARKPOST_API_HOST`. The code at lib/simple_spark/client.rb:9 reads no such variable. `ClientCore.ClientSpecHostExample` and `ClientCore.EnvironmentOnlySuppliesKey` state this.

## Findings

| source | as written | input that shows it | evidently intended | confidence | as-written member | corrected member |
|---|---|---|---|---|---|---|
| lib/simple_spark/endpoints/recipient_lists.rb:16 | every method calls `@client.call(method: ..., path: ...)` with keywords, but `call` takes four positional parameters, two of them required, so Ruby raises ArgumentError before `call` runs | `list` | the request is sent through `call` with the named verb, path, body and query | high (not executed) | RecipientLists.CallSitesDoNotBind | ClientCore.Client.Submit |
| lib/simple_spark/endpoints/suppression_list.rb:20 | the same keyword-style call | `search({})` | as above | high (not executed) | SuppressionList.CallSitesDoNotBind | ClientCore.Client.Submit |
| lib/simple_spark/endpoints/account.rb:20 | the same keyword-style call | `retrieve` | as above | high (not executed) | Account.CallSitesDoNotBind | ClientCore.Client.Submit |
| lib/simple_spark/endpoints/events.rb:19 | the same keyword-style call | `samples` | as above | high (not executed) | Events.CallSitesDoNotBind | ClientCore.Client.Submit |
| lib/simple_spark/endpoints/templates.rb:54 | the path is single-quoted, so `#{id}` is sent literally and every id updates the same path | `update("a", {}, false)` and `update("b", {}, false)` build the same request | the path `templates/<id>` that `retrieve` uses | high (not executed) | EndpointTemplates.UpdateAndPreviewIgnoreId | EndpointTemplates.UpdateInterpolated |
| lib/simple_spark/endpoints/templates.rb:68 | the same single quotes in `preview` | `preview("a", {})` requests `templates/#{id}/preview` | the path `templates/<id>/preview` | high (not executed) | EndpointTemplates.PreviewMissesItsTemplate | EndpointTemplates.PreviewInterpolated |
