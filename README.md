# Atlas CMS .NET SDK — a Dafny model of the client core

The Atlas CMS .NET SDK wraps the Atlas REST API in two clients: `AtlasUserClient` for end users and `AtlasManagementClient` for administration. Both derive from `ClientBase`, which runs every request through one pipeline:

1. It adds an `Authorization: Bearer …` header. The credential is the pending one-shot token when there is one, and the configured API key otherwise.
2. It adds the `Content-Type`, `X-Atlas-SDK` and `User-Agent` headers.
3. It hands the request to the HTTP library.
4. Once the library has returned, it clears the token.
5. It classifies the response: a 200 yields the decoded data. Every other status raises an `AtlasException`. Its message comes from the body's `message`, or else from a fixed table of statuses.

The list queries turn a filter string, the content resolvers, a search or folder, and paging and sorting into query parameters. `FilterBuilder` renders typed filters as `filter[field][op]=value` entries. Implicit conversions turn the untyped user and registration records into their `Dictionary`-typed forms. Two JSON contract resolvers are installed: a first-match composite, and one that makes properties with non-public setters writable.

The model follows the form of the code:

- `ClientBase`, `FilterBuilder`, `MultipleContractResolver`, the RestSharp request and Newtonsoft's `JsonProperty` are classes. Their methods modify exactly the fields the C# code updates.
- The request extensions are methods over the request. Each is proved equal to a pure function that says which parameters are appended. The filter loop and the resolver `StringBuilder` stay loops with invariants.
- Each endpoint method is a pure *endpoint descriptor*: verb, path template, bound URL segments, body and list query. The path the request goes to is computed from the descriptor, so placeholders that stay unbound are visible in it. A method that binds a segment yields either the descriptor or the exception `AddUrlSegment` raises; `Endpoints.Dispatch` runs either through a client, sending the list query and the serialized body along with the path.
- Three things become parameters:
  - the HTTP library: a function from what a request carries to either a response or a thrown exception
  - the JSON parser: a function from text to an optional parsed object
  - the platform probes and the assembly version: constructor inputs

Modules:

- `Wrappers`: `Option`, which stands for a C# null.
- `Strings`: the .NET `Split`, `Join`, `TrimEnd` and `IsNullOrEmpty` that the code relies on, with their round-trip lemmas.
- `Rest`: the RestSharp request as a list of parameters. `AddHeader` and `AddQueryParameter` append. `RemoveParameter` removes every parameter with that name.
- `Queries`: the list queries, the `[Flags]` enum `ContentResolver` as a 32-bit vector, the filter operators and `FilterBuilder`.
- `RequestExtensions`: `AddBearerToken`, the two `AddQuery` overloads, `AddPaging` and `AddSorting`.
- `Exceptions`: the exceptions the SDK raises or lets through, and `Outcome`, a value or a raised exception.
- `Client`: response classification, headers and the `ClientBase` class.
- `ClientExtensions`: `UseToken`.
- `Models`: the user conversions and the records the endpoints send.
- `Endpoints`: endpoint descriptors, path binding, and the two ways methods reshape an outcome: `KeyResult.Result` and the Login convention.
- `AtlasUserClient` and `AtlasManagementClient`: one function per public method.
- `Serializer`: the two contract resolvers.
- `FilterQueries`: how `FilterBuilder`'s output meets `AddQuery`'s filter parsing.

## Model

| member | source | states |
|---|---|---|
| Client.DefaultMessage | src/Atlas.Core/ClientBase.cs:275-288 | the fallback message is never empty, and differs from "Generic Error" exactly for the ten statuses of the table |
| Client.DefaultMessageTable | src/Atlas.Core/ClientBase.cs:275-288 | each of 404, 401, 403, 422, 400, 429, 500, 502, 503 and 504 gets its own message from the table; every other status, 200 and 201 included, gets "Generic Error" |
| Client.ParsedBody | src/Atlas.Core/ClientBase.cs:270 | a null or empty body is read as the empty object `{}`; any other body is whatever the JSON parser yields, possibly a rejection |
| Client.ComposeException | src/Atlas.Core/ClientBase.cs:268-296 | the error is an AtlasException exactly when the body parses as an object, and the parser's JsonReaderException otherwise; an AtlasException carries the response status, the body's `message` when present and the table's message otherwise, and the body's `errors` unchanged |
| Client.EmptyBodyUsesTable | src/Atlas.Core/ClientBase.cs:270-289 | whatever the parser, a null or empty body gives AtlasException(status, table message, no errors) |
| Client.NotFoundWithEmptyBody | src/Atlas.Core/ClientBase.cs:270-288 | a 404 with an empty body is AtlasException(404, "Not found") with no errors |
| Client.ElaborateResponse | src/Atlas.Core/ClientBase.cs:232-245 | succeeds exactly for a non-null response with status 200, whose data it returns; a null response is ArgumentNullException("response"); any other status, 201 and 204 included, fails with the composed exception; an AtlasException raised here always carries the non-200 status of the response |
| Client.ElaborateNullAndOK | src/Atlas.Core/ClientBase.cs:234-244 | a null response is never reported as an AtlasException, and a 200 response never fails |
| Client.ProbeHolds | src/Atlas.Core/ClientBase.cs:25-36 | a platform probe counts as true exactly when it answered true; a probe that threw PlatformNotSupportedException counts as false |
| Client.Os | src/Atlas.Core/ClientBase.cs:23-49 | the OS is one of "Windows", "macOS" and "Linux": "Windows" exactly when the Windows probe holds, "macOS" exactly when it does not and the macOS probe does, "Linux" otherwise |
| Client.EnrichedAuthorization | src/Atlas.Core/ClientBase.cs:94-100 | after enrichment the request has exactly one Authorization parameter, `Bearer <credential>`, or none when the credential is empty, whatever Authorization parameters it held before |
| Client.EnrichedLayout | src/Atlas.Core/ClientBase.cs:96-99 | an enriched request is the bearer-applied parameters followed by exactly Content-Type, X-Atlas-SDK and User-Agent, in that order |
| Client.EnrichedKeepsOthers | src/Atlas.Core/ClientBase.cs:94-100 | enrichment keeps every parameter other than Authorization, in order, ahead of the three standard headers |
| Client.StandardHeadersAreNotAuthorization | src/Atlas.Core/ClientBase.cs:97-99 | none of the three standard headers is an Authorization parameter |
| Client.AddStandardHeaders | src/Atlas.Core/ClientBase.cs:97-99 | the request gains exactly the three standard headers, appended in source order |
| Client.ClientBase.constructor | src/Atlas.Core/ClientBase.cs:68 | a new client has no pending token and keeps its API key, version and platform probes |
| Client.ClientBase.Credential | src/Atlas.Core/ClientBase.cs:96 | the credential is the pending token when it is non-empty, and the API key otherwise |
| Client.ClientBase.SetToken | src/Atlas.Core/ClientBase.cs:302-305 | the pending token becomes the given one, and nothing else changes |
| Client.ClientBase.EnrichRequestHeaders | src/Atlas.Core/ClientBase.cs:94-100 | the request's parameters become the enrichment of the old ones with the current credential and the SDK header; only the request's parameters change |
| Client.ClientBase.Send | src/Atlas.Core/ClientBase.cs:214-223 | the request leaves enriched with the credential held before the call. When the transport returns, the token is cleared, so the next call falls back to the API key, and the outcome is the classification of the response. When the transport throws, its exception propagates and the token is left as it was |
| ClientExtensions.UseToken | src/Atlas.Core/ClientExtensions.cs:16-23 | returns the same client with the token replaced, so the last call wins; an empty token leaves the next call on the API key; nothing but the token changes |
| RequestExtensions.BearerAppliedAuthorization | src/Atlas.Core/Extensions/RequestExtensions.cs:15-28 | after AddBearerToken the Authorization parameters are exactly `[Bearer <token>]`, or none for an empty token, and every other parameter is kept in order |
| RequestExtensions.BearerAppliedIdempotent | src/Atlas.Core/Extensions/RequestExtensions.cs:15-28 | applying the same bearer token twice is the same as applying it once |
| RequestExtensions.AddBearerToken | src/Atlas.Core/Extensions/RequestExtensions.cs:15-28 | returns the same request, whose parameters are the bearer-applied old ones |
| RequestExtensions.PieceParametersWellFormed | src/Atlas.Core/Extensions/RequestExtensions.cs:41-49 | every parameter made from `&`-free pieces is a query parameter with a text value, and neither its name nor its value holds `&` or `=` |
| RequestExtensions.FilterParametersWellFormed | src/Atlas.Core/Extensions/RequestExtensions.cs:37-50 | whatever the filter string, every parameter it yields is a query parameter with a text value, and neither its name nor its value holds `&` or `=` |
| RequestExtensions.SinglePieceWithManyEqualsDropped | src/Atlas.Core/Extensions/RequestExtensions.cs:39-48 | a filter string without `&` but with two or more `=` yields no parameter at all |
| RequestExtensions.PairPieceParameter | src/Atlas.Core/Extensions/RequestExtensions.cs:43-48 | the piece `name=value`, with a name and value free of `&` and `=`, becomes exactly the query parameter name = value |
| RequestExtensions.PairPieceParameters | src/Atlas.Core/Extensions/RequestExtensions.cs:41-49 | a sequence of such pieces becomes one query parameter per piece, in order |
| RequestExtensions.FilterOfJoined | src/Atlas.Core/Extensions/RequestExtensions.cs:37-39 | splitting the `&`-join of `&`-free texts gives back exactly those texts, each parsed as a piece |
| RequestExtensions.FilterParametersRoundTrip | src/Atlas.Core/Extensions/RequestExtensions.cs:37-50 | a non-empty list of clean pairs, rendered as `n1=v1&n2=v2&…`, parses back into exactly those query parameters, in order |
| RequestExtensions.TrimmedResolverNames | src/Atlas.Core/Extensions/RequestExtensions.cs:54-69 | trimming the trailing commas off the comma-terminated flag names leaves the names joined by single commas |
| RequestExtensions.TrimmedTerminated | src/Atlas.Core/Extensions/RequestExtensions.cs:69 | for names that are non-empty and do not end in a comma, `TrimEnd(',')` of the comma-terminated names is their comma-join |
| RequestExtensions.ResolveValueShape | src/Atlas.Core/Extensions/RequestExtensions.cs:52-70 | the `resolve` value is empty exactly when none of Media, MediaGallery and References is set, and it never ends in a comma |
| RequestExtensions.ContentsQueryLayout | src/Atlas.Core/Extensions/RequestExtensions.cs:30-78 | a contents query adds its filter parameters first, then `resolve` only when some resolver is set, `search` only when the search is non-empty, and finally page, size and sort carrying the query's values |
| RequestExtensions.AssetsQueryLayout | src/Atlas.Core/Extensions/RequestExtensions.cs:80-108 | an assets query adds its filter parameters first, then `folder` only when the folder is non-empty, and finally page, size and sort carrying the query's values |
| RequestExtensions.AddPaging | src/Atlas.Core/Extensions/RequestExtensions.cs:110-121 | returns the same request: unchanged for a null query, otherwise with `page` and `size` appended |
| RequestExtensions.AddSorting | src/Atlas.Core/Extensions/RequestExtensions.cs:123-133 | returns the same request: unchanged for a null query, otherwise with `sort` appended, even when null |
| RequestExtensions.AddFilters | src/Atlas.Core/Extensions/RequestExtensions.cs:37-50 | the loop appends exactly the parameters of the filter string's two-part pieces, in order, and nothing for a null or empty string |
| RequestExtensions.AppendFlagName | src/Atlas.Core/Extensions/RequestExtensions.cs:56-67 | one flag test only appends to the builder, and appends exactly when the flag is set, so the builder stays the comma-terminated list of the set flag names met so far |
| RequestExtensions.BuildResolveValue | src/Atlas.Core/Extensions/RequestExtensions.cs:54-69 | the StringBuilder-and-TrimEnd code computes the comma-join of the set flag names, in the order media, mediagallery, references |
| RequestExtensions.AddResolve | src/Atlas.Core/Extensions/RequestExtensions.cs:52-70 | `resolve` is appended exactly when the resolvers are not None |
| RequestExtensions.AddOptionalText | src/Atlas.Core/Extensions/RequestExtensions.cs:72-75 | a text parameter is appended exactly when its value is neither null nor empty |
| RequestExtensions.AddContentsQuery | src/Atlas.Core/Extensions/RequestExtensions.cs:30-78 | returns the same request: unchanged for a null query, otherwise with exactly the contents query's parameters appended |
| RequestExtensions.AddAssetsQuery | src/Atlas.Core/Extensions/RequestExtensions.cs:80-108 | returns the same request: unchanged for a null query, otherwise with exactly the assets query's parameters appended |
| Queries.DefaultListQuery | src/Atlas.Core/Models/Queries/ListQuery.cs:11-13 | a new list query asks for page 1 of size 25 with no sort |
| Queries.DefaultContentsQuery | src/Atlas.Core/Models/Queries/ContentsQuery.cs:11-13 | a new contents query has the list defaults, no filters, no search and no resolvers |
| Queries.OperatorTokenRoundTrip | src/Atlas.Core/Models/Queries/FilterBuilder.cs:50-71 | each of the fifteen operators is recovered from its token |
| Queries.ParseOperatorInjective | src/Atlas.Core/Models/Queries/FilterBuilder.cs:50-71 | distinct operators have distinct tokens |
| Queries.FilterBuilder.constructor | src/Atlas.Core/Models/Queries/FilterBuilder.cs:14-17 | a new builder holds no entries |
| Queries.FilterBuilder.Create | src/Atlas.Core/Models/Queries/FilterBuilder.cs:19-22 | returns a fresh builder with no entries, whose string form is empty |
| Queries.FilterBuilder.Add | src/Atlas.Core/Models/Queries/FilterBuilder.cs:24-38 | returns the same builder; a null value changes nothing; otherwise exactly `filter[field][op]=value` is appended, and the string form grows by `$` and that entry, or becomes that entry for an empty builder |
| FilterQueries.TokenClean | src/Atlas.Core/Models/Queries/FilterBuilder.cs:52-69 | no operator token holds `&` or `=` |
| FilterQueries.CleanEntry | src/Atlas.Core/Models/Queries/FilterBuilder.cs:30-34 | an entry whose field and value hold neither `&` nor `=` is `name=value` with exactly one `=` and no `&` |
| FilterQueries.SeparatedJoinDropped | src/Atlas.Core/Extensions/RequestExtensions.cs:37-50 | two or more `name=value` texts joined with `$` form one piece with several `=`, and the filter parsing drops it |
| FilterQueries.DollarJoinedFiltersDropped | src/Atlas.Core/Models/Queries/FilterBuilder.cs:40-43 | two or more clean builder entries, joined with `$` as ToString does and used as a query's Filters, yield no filter parameter |
| FilterQueries.BuilderStringDropsFilters | src/Atlas.Core/Models/Queries/FilterBuilder.cs:40-48 | the same for a builder's string form, as its implicit conversion hands it to a query |
| FilterQueries.BuilderQueryStringRoundTrip | src/Atlas.Core/Models/Queries/FilterBuilder.cs:40-43 | joined with `&` instead, a builder's clean entries reach the request as one `filter[field][op]` = value query parameter each, in insertion order |
| Models.UserToTyped | src/Atlas.Core/Models/User.cs:54-72 | the user conversion copies the id, the four audit fields, the roles and the attributes |
| Models.UserConversionBijective | src/Atlas.Core/Models/User.cs:54-72 | the user conversion loses and invents nothing: reading the result back gives the source, and converting a read-back gives the typed user |
| Models.RegisterUserToTyped | src/Atlas.Core/Models/User.cs:89-103 | the registration conversion leaves the id and the four audit fields null, and copies the password, the roles and the attributes |
| Models.RegisterUserConversionDropsAudit | src/Atlas.Core/Models/User.cs:89-103 | reading the converted registration back gives the source with its id and audit fields cleared; two registrations convert alike exactly when they agree outside those five fields |
| Models.RegisterUserConversionLosesId | src/Atlas.Core/Models/User.cs:89-103 | for every registration and every id, replacing the registration's id changes nothing in the converted value |
| Endpoints.UrlSegment | src/Atlas.Core/AtlasUserClient.cs:71 | AddUrlSegment refuses a null or empty value with ArgumentNullException("value"), and binds any other value under its name |
| Endpoints.WithSegment | src/Atlas.Core/AtlasManagementClient.cs:129 | a request built around one AddUrlSegment is refused exactly when the value is null or empty, and is otherwise the endpoint with that one segment bound |
| Endpoints.Binding | src/Atlas.Core/AtlasUserClient.cs:71 | a bound value is that of a segment of that name; no value means no segment has that name |
| Endpoints.Unbound | src/Atlas.Core/AtlasUserClient.cs:38 | a placeholder of the template is listed as unbound exactly when no segment binds its name |
| Endpoints.BoundPathHasNoPlaceholder | src/Atlas.Core/AtlasManagementClient.cs:39-40 | with every placeholder bound, and no `{` in the literals or the values, the path holds no `{` |
| Endpoints.KeyResultValue | src/Atlas.Core/AtlasUserClient.cs:60 | the created id is the decoded `result`; a null decoded KeyResult is a NullReferenceException; a failed call propagates unchanged |
| Endpoints.LoginResult | src/Atlas.Core/AtlasUserClient.cs:174-189 | an AtlasException with status 401 becomes a null token and every other outcome passes unchanged; the result fails exactly for failures other than a 401, and is a null token exactly for a 401 or a null decoded token |
| Endpoints.LoginOfUnauthorizedResponse | src/Atlas.Core/AtlasUserClient.cs:174-185 | through the pipeline, a 401 whose body is empty or a JSON object logs in as null, and a 401 with a non-JSON body raises the parser's exception |
| Endpoints.LoginOfOKResponse | src/Atlas.Core/AtlasUserClient.cs:176 | a 200 response logs in with its decoded token |
| Endpoints.Carried | src/Atlas.Core/AtlasManagementClient.cs:325-327 | before the pipeline, a request holds its list query's parameters in order and then, when the endpoint has a body, exactly one more parameter: that body serialized |
| Endpoints.SentBody | src/Atlas.Core/AtlasManagementClient.cs:325-329 | after enrichment the request holds the serialized body exactly when the endpoint has one, and no other body parameter |
| Endpoints.SentQuery | src/Atlas.Core/AtlasManagementClient.cs:209-211 | after enrichment, apart from Authorization, the request holds the list query's parameters in order, then the body, then the three standard headers |
| Endpoints.AddQueryPairs | src/Atlas.Core/AtlasManagementClient.cs:209 | the request gains one query parameter per rendered pair of the list query, in order |
| Endpoints.Dispatch | src/Atlas.Core/AtlasManagementClient.cs:323-330 | a refused descriptor raises its exception before anything is sent, and the pending token stays set; a built one goes to its path carrying its list query and its serialized body, through the pipeline with the credential held before the call, clearing the token exactly when the transport returns |
| AtlasUserClient.ChangePassword | src/Atlas.Core/AtlasUserClient.cs:36-47 | as written: a POST of `{ password }` to `/api/users/{id}`, with `id` left unbound, so the request path is the literal template, whatever the id, the empty one included |
| AtlasUserClient.ChangePasswordIgnoresId | src/Atlas.Core/AtlasUserClient.cs:36-47 | as written, every id sends the password change to the same path, and the path is never fully bound |
| AtlasUserClient.ChangePasswordBound | src/Atlas.Core/AtlasUserClient.cs:36-47 | corrected: the same POST with `{id}` bound, to `/api/users/<id>`; an empty id is then refused with ArgumentNullException("value") |
| AtlasUserClient.ChangePasswordBoundSeparatesIds | src/Atlas.Core/AtlasUserClient.cs:36-47 | corrected: two password changes that are built go to the same path exactly when they are for the same id |
| AtlasUserClient.CreateRole | src/Atlas.Core/AtlasUserClient.cs:56-61 | a POST of the role to `/api/roles` |
| AtlasUserClient.DeleteRole | src/Atlas.Core/AtlasUserClient.cs:69-74 | a DELETE of `/api/roles/<id>` with no body, `{id}` bound to the argument, when the id is non-empty; an empty id is refused with ArgumentNullException("value") and no request is built |
| AtlasUserClient.DeleteUser | src/Atlas.Core/AtlasUserClient.cs:82-87 | a DELETE of `/api/users/<id>` with no body, `{id}` bound to the argument, when the id is non-empty; an empty id is refused with ArgumentNullException("value") and no request is built |
| AtlasUserClient.GetRoles | src/Atlas.Core/AtlasUserClient.cs:95-100 | a GET of `/api/roles` |
| AtlasUserClient.GetUser | src/Atlas.Core/AtlasUserClient.cs:109-127 | the generic and the untyped forms both GET `/api/users/<id>`, `{id}` bound to the argument, when the id is non-empty; an empty id is refused with ArgumentNullException("value") and no request is built |
| AtlasUserClient.GetUsers | src/Atlas.Core/AtlasUserClient.cs:136-154 | the generic and the untyped forms both GET `/api/users` carrying the possibly null user query |
| AtlasUserClient.Login | src/Atlas.Core/AtlasUserClient.cs:164-190 | a POST of the username and password to `/api/users/login` |
| AtlasUserClient.RegisterUserTyped | src/Atlas.Core/AtlasUserClient.cs:212-217 | a POST of the registration to `/api/users/register` |
| AtlasUserClient.RegisterUser | src/Atlas.Core/AtlasUserClient.cs:199-202 | a null registration raises NullReferenceException in the conversion; otherwise it delegates to the generic form through the conversion, so the body sent never carries an id or audit fields, and reading it back gives the source without them |
| AtlasUserClient.UpdateRole | src/Atlas.Core/AtlasUserClient.cs:225-230 | a PUT of the role to `/api/roles`, with no id in the path |
| AtlasUserClient.UpdateUserTyped | src/Atlas.Core/AtlasUserClient.cs:250-255 | a null user raises NullReferenceException when its id is read; otherwise a PUT of the user to `/api/users/{id}` bound to the user's own id when that id is neither null nor empty; otherwise refused with ArgumentNullException("value"), no request built |
| AtlasUserClient.UpdateUser | src/Atlas.Core/AtlasUserClient.cs:238-241 | a null user raises NullReferenceException in the conversion; otherwise it delegates to the generic form through the conversion, which keeps the id: refused exactly when the source's id is null or empty, and otherwise the body read back is the source user |
| AtlasManagementClient.ChangePassword | src/Atlas.Core/AtlasManagementClient.cs:37-49 | a POST of `{ password }` to `/api/admin/accounts/<id>/change-password`, with `{id}` bound, when the id is non-empty; an empty id is refused with ArgumentNullException("value") and no request is built |
| AtlasManagementClient.CreateAccount | src/Atlas.Core/AtlasManagementClient.cs:58-64 | a POST of the registration to `/api/admin/accounts` |
| AtlasManagementClient.CreateAccountRole | src/Atlas.Core/AtlasManagementClient.cs:73-83 | a null role raises NullReferenceException; otherwise a POST of only the role's name and permissions to `/api/admin/roles` |
| AtlasManagementClient.CreateApiKey | src/Atlas.Core/AtlasManagementClient.cs:92-105 | a null key raises NullReferenceException; otherwise a POST of only the key's name, state, validity and permissions to `/api/admin/apikeys` |
| AtlasManagementClient.CreateApiKeyIgnoresIdAndKey | src/Atlas.Core/AtlasManagementClient.cs:94-102 | two API keys that differ only in id and key value are created by the same request |
| AtlasManagementClient.CreateWebhook | src/Atlas.Core/AtlasManagementClient.cs:114-119 | a POST of the webhook to `/api/admin/webhooks` |
| AtlasManagementClient.DeleteAccount | src/Atlas.Core/AtlasManagementClient.cs:127-132 | a DELETE of `/api/admin/accounts/<id>` with no body, `{id}` bound to the argument, when the id is non-empty; an empty id is refused with ArgumentNullException("value") and no request is built |
| AtlasManagementClient.DeleteAccountRole | src/Atlas.Core/AtlasManagementClient.cs:140-145 | a DELETE of `/api/admin/roles/<id>` with no body, `{id}` bound to the argument, when the id is non-empty; an empty id is refused with ArgumentNullException("value") and no request is built |
| AtlasManagementClient.DeleteApiKey | src/Atlas.Core/AtlasManagementClient.cs:153-158 | a DELETE of `/api/admin/apikeys/<id>` with no body, `{id}` bound to the argument, when the id is non-empty; an empty id is refused with ArgumentNullException("value") and no request is built |
| AtlasManagementClient.DeleteWebhook | src/Atlas.Core/AtlasManagementClient.cs:166-171 | a DELETE of `/api/admin/webhooks/<id>` with no body, `{id}` bound to the argument, when the id is non-empty; an empty id is refused with ArgumentNullException("value") and no request is built |
| AtlasManagementClient.GetAccount | src/Atlas.Core/AtlasManagementClient.cs:180-185 | a GET of `/api/admin/accounts/<id>`, `{id}` bound to the argument, when the id is non-empty; an empty id is refused with ArgumentNullException("value") and no request is built |
| AtlasManagementClient.GetAllAccountRoles | src/Atlas.Core/AtlasManagementClient.cs:193-198 | a GET of `/api/admin/roles` |
| AtlasManagementClient.GetAccounts | src/Atlas.Core/AtlasManagementClient.cs:207-212 | a GET of `/api/admin/accounts` carrying the possibly null accounts query |
| AtlasManagementClient.GetApiKey | src/Atlas.Core/AtlasManagementClient.cs:221-226 | a GET of `/api/admin/apikeys/<id>`, `{id}` bound to the argument, when the id is non-empty; an empty id is refused with ArgumentNullException("value") and no request is built |
| AtlasManagementClient.GetAllApiKeys | src/Atlas.Core/AtlasManagementClient.cs:233-238 | a GET of `/api/admin/apikeys` |
| AtlasManagementClient.GetSettings | src/Atlas.Core/AtlasManagementClient.cs:246-251 | a GET of `/api/admin/settings` |
| AtlasManagementClient.GetWebhook | src/Atlas.Core/AtlasManagementClient.cs:260-265 | a GET of `/api/admin/webhooks/<id>`, `{id}` bound to the argument, when the id is non-empty; an empty id is refused with ArgumentNullException("value") and no request is built |
| AtlasManagementClient.GetAllWebooks | src/Atlas.Core/AtlasManagementClient.cs:273-278 | a GET of `/api/admin/webhooks` |
| AtlasManagementClient.Login | src/Atlas.Core/AtlasManagementClient.cs:288-315 | a POST of the username and password to `/api/admin/login` |
| AtlasManagementClient.UpdateAccount | src/Atlas.Core/AtlasManagementClient.cs:323-330 | a null entity raises NullReferenceException when its id is read; otherwise a PUT of the account to `/api/admin/accounts/{id}` bound to its own id when that id is neither null nor empty; otherwise refused with ArgumentNullException("value"), no request built |
| AtlasManagementClient.UpdateAccountRole | src/Atlas.Core/AtlasManagementClient.cs:338-345 | a null entity raises NullReferenceException when its id is read; otherwise a PUT of the role to `/api/admin/roles/{id}` bound to its own id when that id is neither null nor empty; otherwise refused with ArgumentNullException("value"), no request built |
| AtlasManagementClient.UpdateApiKey | src/Atlas.Core/AtlasManagementClient.cs:353-360 | a null entity raises NullReferenceException when its id is read; otherwise a PUT of the key to `/api/admin/apikeys/{id}` bound to its own id when that id is neither null nor empty; otherwise refused with ArgumentNullException("value"), no request built |
| AtlasManagementClient.UpdateWebhook | src/Atlas.Core/AtlasManagementClient.cs:368-375 | a null entity raises NullReferenceException when its id is read; otherwise a PUT of the webhook to `/api/admin/webhooks/{id}` bound to its own id when that id is neither null nor empty; otherwise refused with ArgumentNullException("value"), no request built |
| AtlasManagementClient.CreateModel | src/Atlas.Core/AtlasManagementClient.cs:384-387 | always raises NotImplementedException and sends nothing |
| AtlasManagementClient.DeleteModel | src/Atlas.Core/AtlasManagementClient.cs:395-400 | a DELETE of `/api/content-types/models/<id>` with no body, `{id}` bound to the argument, when the id is non-empty; an empty id is refused with ArgumentNullException("value") and no request is built |
| AtlasManagementClient.UpdateModel | src/Atlas.Core/AtlasManagementClient.cs:408-415 | a null entity raises NullReferenceException when its id is read; otherwise a PUT of the model to `/api/content-types/models/{id}` bound to its own id when that id is neither null nor empty; otherwise refused with ArgumentNullException("value"), no request built |
| AtlasManagementClient.CreateComponent | src/Atlas.Core/AtlasManagementClient.cs:424-427 | always raises NotImplementedException and sends nothing |
| AtlasManagementClient.DeleteComponent | src/Atlas.Core/AtlasManagementClient.cs:435-440 | a DELETE of `/api/content-types/components/<id>` with no body, `{id}` bound to the argument, when the id is non-empty; an empty id is refused with ArgumentNullException("value") and no request is built |
| AtlasManagementClient.UpdateComponent | src/Atlas.Core/AtlasManagementClient.cs:448-455 | a null entity raises NullReferenceException when its id is read; otherwise a PUT of the component to `/api/content-types/components/{id}` bound to its own id when that id is neither null nor empty; otherwise refused with ArgumentNullException("value"), no request built |
| Serializer.FirstContractIsFirstMatch | src/Atlas.Core/Sereializer/NewtonsoftJson/MultipleContractResolver.cs:16-22 | the composite answers null exactly when every resolver does, and otherwise gives the answer of a resolver all of whose predecessors answered null |
| Serializer.FirstContractAppend | src/Atlas.Core/Sereializer/NewtonsoftJson/MultipleContractResolver.cs:16-22 | appended resolvers matter only for types the earlier ones leave unresolved |
| Serializer.MultipleContractResolver.constructor | src/Atlas.Core/Sereializer/NewtonsoftJson/MultipleContractResolver.cs:14 | a new composite holds no resolvers |
| Serializer.MultipleContractResolver.Add | src/Atlas.Core/Sereializer/NewtonsoftJson/MultipleContractResolver.cs:24-28 | a null resolver raises ArgumentNullException("contractResolver") and changes nothing; otherwise the resolver is appended, and every type resolved before keeps its contract |
| Serializer.UpgradedWritable | src/Atlas.Core/Sereializer/NewtonsoftJson/PrivateSetterContractResolver.cs:22-28 | a writable property stays writable; a non-writable property becomes writable exactly when it has a setter of any visibility; any other member keeps the base decision |
| Serializer.CreateProperty | src/Atlas.Core/Sereializer/NewtonsoftJson/PrivateSetterContractResolver.cs:19-31 | returns the base resolver's property object with its writability upgraded by that rule; nothing else changes |

## Left out

- The HTTP transport (RestSharp's `ExecuteAsync`), `async`/`await` and cancellation tokens are left out. The transport is a function parameter of `Send` that either returns a possibly null response or throws.
- The `GetAsync`, `PostAsync`, `PutAsync` and `DeleteAsync` wrappers only choose the HTTP verb and pass it to `Send`. The endpoint descriptors record that verb instead.
- JSON parsing and serialization are left out. Newtonsoft's `JObject.Parse` is a parameter returning the parsed `message` and `errors`, or nothing for text that is not a JSON object. The serializer that turns a body into JSON text is the parameter `serialize` of `Endpoints.Dispatch`; the model sends that text as the body parameter, where RestSharp serializes the object when the request executes. camelCase naming and the string enum converter are not modelled.
- The generic methods' response type and the decoding of response data are left out. The data arrives already decoded in the response.
- The assembly version is read by reflection, and the platform is detected through `RuntimeInformation`. Both are constructor inputs of `ClientBase`. `IsLinux` is declared but never used, so it is not modelled.
- `FilterBuilder.Add` tests a value with `double.TryParse` and formats it in the invariant culture. Both are abstract here: a filter value carries its text and, when it reads as a number, that number's invariant-culture text.
- `MultipleContractResolver.GetEnumerator` yields the `resolvers` field in the order `Add` appends, which `Add`'s contract states, so it has no member of its own.
- The implicit string conversion of `FilterBuilder` returns `ToString()` unchanged. The model uses `ToString` for both, so the conversion has no member of its own.
- `ParseOperator`'s default branch (`_ => "eq"`) is unreachable for the fifteen declared operators. A closed datatype has no other values, so the branch is not modelled.
- The contents of `UserQuery` and `AccountsQuery`, and the `AddQuery` overloads that render them, are not part of this model. `GetUsers` and `GetAccounts` carry the query as an opaque value. `Endpoints.Dispatch` takes the rendering as the parameter `render`, and assumes that those overloads, like the visible ones, only add query parameters.
- `RegisterAccount`, `KeyResult<T>`'s other members and the full entity classes are reduced to the fields the endpoints read. `CreateAccount` takes the registration as an opaque type parameter.
- RestSharp's `AddUrlSegment` is not part of this model. The model assumes that RestSharp (107 and later, the API the SDK uses) rejects a null or empty URL segment value with ArgumentNullException("value") while the request is being built (`Endpoints.UrlSegment`). This affects every `Delete*`, the `Get*` methods that take an id, the management `ChangePassword`, the corrected user `ChangePasswordBound`, and the `Update*` methods that bind the entity's id. The library's treatment of a whitespace-only value, its `%2F` handling and the URL-encoding of segment values are not modelled.
- An id argument is a non-null string in the model. A null id would be refused like the empty one, so it is not modelled separately.
- Methods that read a member of their entity argument take an optional entity, and a null one raises NullReferenceException. These are every `Update*` that binds the entity's id, `CreateAccountRole`, `CreateApiKey`, and the untyped `RegisterUser` and `UpdateUser`, whose implicit conversions read the source. An entity that goes straight to `AddJsonBody` (`CreateRole`, `UpdateRole`, `CreateWebhook`, `CreateAccount`, `RegisterUserTyped`) is non-null in the model: what RestSharp does with a null body is not part of this model.
- The RestSharp `RestRequest` is reduced to its list of parameters and its resource. The model assumes three behaviours of the library:
  - `AddHeader`, `AddQueryParameter` and `AddJsonBody` append; `AddJsonBody` adds one unnamed body parameter
  - `RemoveParameter(name)` removes every parameter of that name
  - a `null` sort value is still added as a parameter
- Concurrent calls on one client, which race on the pending token, are not modelled. Each call is sequential.
- `AtlasClient.cs`, the dependency-injection glue, the client interfaces and `RequestHelpers.cs` are not part of this model.
- Two behaviours the code lacks:
  - There is no try/finally around the transport call, so a transport that throws leaves the pending token set (`Client.ClientBase.Send`).
  - Classification does not guard `JObject.Parse`, so a failed response whose body is not a JSON object raises the parser's JsonReaderException instead of an AtlasException (`Client.ComposeException`).

## Findings

| source | as written | input that shows it | evidently intended | confidence | as-written member | corrected member |
|---|---|---|---|---|---|---|
| src/Atlas.Core/AtlasUserClient.cs:38 | `ChangePassword` builds `/api/users/{id}` but never binds the `id` segment, so the request goes to the literal path `/api/users/{id}` for every user | `ChangePassword("42", "pw")` and `ChangePassword("43", "pw")` both POST to `/api/users/{id}` | bind `{id}` to the argument, as `AtlasManagementClient.ChangePassword` does, so each user's change goes to `/api/users/<id>` | not executed | AtlasUserClient.ChangePasswordIgnoresId | AtlasUserClient.ChangePasswordBoundSeparatesIds |
| src/Atlas.Core/Models/Queries/FilterBuilder.cs:42 | `ToString` joins the entries with `$`, but `AddQuery` splits `Filters` on `&` and keeps only pieces with exactly one `=`, so a builder with two or more entries sends no filter at all | `Add("a", Equal, "1").Add("b", Equal, "2")` renders `filter[a][eq]=1$filter[b][eq]=2`: one piece with two `=`, which is dropped | join the entries with `&`, so each becomes one query parameter | not executed | FilterQueries.BuilderStringDropsFilters | FilterQueries.BuilderQueryStringRoundTrip |
