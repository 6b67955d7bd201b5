# API assistant backend — a Dafny model

The backend registers descriptors of external REST APIs (an asset-management
system, "sabi", and an electoral geoportal, "trendvoto"), queries them over
HTTP, documents them as OpenAPI documents and Markdown pages, and answers
natural-language questions by picking the relevant APIs and endpoints and
turning live API data into text for a language model. Beside it runs a
JSON-RPC control-protocol layer: a server with an "initialized" flag that
dispatches `initialize`, `resources/*`, `tools/*` and `ping`, resource
providers for `api://`, `system://` and `database://` URIs, tool providers
for API queries, API discovery and a cross-database text search, a WebSocket
transport, a stdio server, a legacy and a minimal MCP server, and a client
with bounded reconnection and request/response correlation by numeric id.
The database manager keeps one pool per configured database and searches or
counts a term across every text column of every table, skipping a table or
a database that fails.

The model is written module by module after the source files:

- `Js` is the shared model of JavaScript values (`undefined`, `null`,
  booleans, integers, strings, arrays, objects with their own properties in
  enumeration order, functions), their truthiness, property reads, string
  conversion and `JSON.stringify`; `Common`, `Strs` and `OrderedMap` hold
  the generic helpers (results, filters, substring search, ASCII case
  mapping, splitting, insertion-ordered maps).
- Objects whose methods update fields (the registry, the health service,
  the protocol server, the client, the WebSocket transport, the database
  manager) are classes with `modifies` and `reads` clauses; their methods
  are proved against specification functions of the old state.
- Pure code (formatters, validators, documenters, the chat controller's
  selection and rendering rules) is datatypes, functions and lemmas; the
  loops of the source are methods proved equal to those functions.
- Network calls, SQL queries, the language model, the URL parser, the
  clock and the process are parameters of the operations that use them
  (an oracle function or the result the call produced).

## Model

| member | source | states |
|---|---|---|
| ApiDiscoverer.ExtractParameters | backend/src/services/api/apiDiscoverer.ts:117-129 | a falsy `parameters` gives `[]`; a truthy non-array throws "not a function" on `map`; otherwise one parameter per element |
| ApiDiscoverer.MapParameters | backend/src/services/api/apiDiscoverer.ts:120-128 | the mapping succeeds exactly when no element is `undefined`/`null`, and then maps each element in order |
| ApiDiscoverer.ParameterDefaults | backend/src/services/api/apiDiscoverer.ts:121-127 | a parameter keeps its name; type defaults to "string", required to `false`, description to "", location to "query" |
| ApiDiscoverer.ResponseSchemaChoice | backend/src/services/api/apiDiscoverer.ts:131-145 | the 200 response is preferred to the 201 one, then to the first declared; the schema is its `application/json` schema, else `{}` |
| ApiDiscoverer.Description | backend/src/services/api/apiDiscoverer.ts:105 | an operation's description (summary, description or "method path") is never falsy |
| ApiDiscoverer.Endpoint | backend/src/services/api/apiDiscoverer.ts:101-109 | reading `summary` of a missing operation throws the property-read error |
| ApiDiscoverer.EndpointShape | backend/src/services/api/apiDiscoverer.ts:100-109 | an operation under one of the seven method keys gives a well-formed endpoint with the raw path and its description |
| ApiDiscoverer.ExtractEndpointsFromSwagger | backend/src/services/api/apiDiscoverer.ts:91-115 | the two nested loops compute exactly the extracted endpoint list (or the first error thrown) |
| ApiDiscoverer.NoPathsNoEndpoints | backend/src/services/api/apiDiscoverer.ts:94-96 | a document without `paths` gives no endpoints |
| ApiDiscoverer.MethodEndpointsWellFormed | backend/src/services/api/apiDiscoverer.ts:99-111 | every endpoint produced for one path is well formed |
| ApiDiscoverer.ExtractedWellFormed | backend/src/services/api/apiDiscoverer.ts:98-112 | every extracted endpoint has one of the seven methods upper-cased, a description and tags |
| ApiDiscoverer.DiscoverEndpoints | backend/src/services/api/apiDiscoverer.ts:10-29 | Swagger endpoints are used exactly for swagger/mixed APIs whose documentation loads and extracts; every other case falls back to the configured endpoints |
| ApiTypes.SetHeader | backend/src/services/api/apiQuery.ts:178-185 | assigning a header adds at most one entry |
| ApiTypes.SetHeaderValue | backend/src/services/api/apiQuery.ts:178-185 | after assigning a header it reads the new value, and every other header reads as before |
| ApiTypes.MergeHeadersValue | backend/src/services/api/ApiService.ts:53-57 | in `{...base, ...extra}` the last binding in `extra` wins for each name it sets; other names keep the base value |
| OpenApiDoc.PutOperationSpec | backend/src/services/api/apiDocumenter.ts:35-45 | writing an operation creates the path item when missing, sets the method, and leaves other methods and other paths unchanged |
| OpenApiDoc.PutAllSpec | backend/src/services/api/apiDocumenter.ts:28-30 | after the loop there is one path item per distinct key, and each method holds the operation of the last element that has that key and method |
| OpenApiDoc.SecuritySchemesSpec | backend/src/services/api/apiDocumenter.ts:73-96 | bearer gives the JWT BearerAuth scheme; apiKey gives the ApiKeyAuth header scheme with a default key of "X-API-Key"; anything else gives none |
| OpenApiDoc.SectionShape | backend/src/services/api/apiDocumenter.ts:106-120 | an endpoint section opens with "### METHOD path" and ends with the rule |
| OpenApiDoc.TableShape | backend/src/services/api/apiDocumenter.ts:109-118 | a parameter table appears exactly when the endpoint declares parameters, and it opens with the column heading |
| OpenApiDoc.AppendRows | backend/src/services/api/apiDocumenter.ts:114-116 | the row loop appends one row per parameter |
| OpenApiDoc.AppendSection | backend/src/services/api/apiDocumenter.ts:106-120 | one loop iteration appends the endpoint's section |
| OpenApiDoc.AppendSections | backend/src/services/api/apiDocumenter.ts:105-121 | the endpoint loop appends the sections in order |
| ApiDocumenter.ExtractTagSegment | backend/src/services/api/apiDocumenter.ts:68-71 | a tag is never empty and holds no "/" |
| ApiDocumenter.ExtractTagFirst | backend/src/services/api/apiDocumenter.ts:68-71 | the tag of "/seg" and of "/seg/rest" is "seg" |
| ApiDocumenter.ExtractTagGeneral | backend/src/services/api/apiDocumenter.ts:70 | paths with no named segment get the tag "general" |
| ApiDocumenter.OperationSpec | backend/src/services/api/apiDocumenter.ts:45-65 | the operation is tagged by its path, keeps its parameters in order (absent when there are none), and answers 200 with the declared schema or `{type: object}` |
| ApiDocumenter.GenerateSwaggerDocument | backend/src/services/api/apiDocumenter.ts:7-33 | the loop builds the document from the endpoints written in turn under their raw paths |
| ApiDocumenter.SwaggerDocumentSpec | backend/src/services/api/apiDocumenter.ts:7-33 | path items exist for exactly the endpoints' paths, each method holds the last endpoint's operation, and the security schemes and title come from the API |
| ApiDocumenter.GenerateMarkdownDocumentation | backend/src/services/api/apiDocumenter.ts:98-124 | the page is the header, "## Endpoints", then one section per endpoint |
| ApiDocumenter.SectionsContain | backend/src/services/api/apiDocumenter.ts:105-121 | every endpoint's section occurs in the page |
| ApiDocumenter.ConsolidatePaths | backend/src/services/api/apiDocumenter.ts:129-157 | the loop writes each endpoint under the key "api:path" and its lower-cased method |
| ApiDocumenter.KeyInjective | backend/src/services/api/apiDocumenter.ts:133 | when no API id holds ":", the key determines both the API and the path |
| ApiDocumenter.ConsolidatedPathsSpec | backend/src/services/api/apiDocumenter.ts:129-157 | an entry exists exactly for an (API, path) pair that has endpoints and holds the last operation per method |
| ApiDocumenter.KeyCollision | backend/src/services/api/apiDocumenter.ts:133 | an API id holding ":" can share a key with another API's path |
| ApiDocumenter.ConsolidateSecuritySchemes | backend/src/services/api/apiDocumenter.ts:162-200 | the loop computes the merged scheme record |
| ApiDocumenter.SchemesSpec | backend/src/services/api/apiDocumenter.ts:162-200 | there is a scheme "id_auth" exactly for an API with bearer, apiKey or oauth2 authentication, and its value is the scheme (bearer JWT, apiKey header, or oauth2 authorization-code flow) of the last such API whose id with "_auth" is that key |
| SwaggerGenerator.ReplaceParams | backend/src/utils/swaggerGenerator.ts:108 | the rewrite keeps the first character, or turns a leading ":" into "{" |
| SwaggerGenerator.ReplaceParamsFree | backend/src/utils/swaggerGenerator.ts:108 | no ":name" parameter is left after the rewrite |
| SwaggerGenerator.ReplaceParamsIdentity | backend/src/utils/swaggerGenerator.ts:108 | a string with nothing to rewrite is unchanged |
| SwaggerGenerator.NormalizePathSpec | backend/src/utils/swaggerGenerator.ts:101-111 | a normalized path starts with "/" and holds no ":name"; normalizing is idempotent, and an already normal path is kept |
| SwaggerGenerator.NormalizePathExample | backend/src/utils/swaggerGenerator.ts:101-111 | ":id" normalizes to "/{id}" |
| SwaggerGenerator.Underscored | backend/src/utils/swaggerGenerator.ts:118 | every character outside letters and digits becomes "_", and the length is kept |
| SwaggerGenerator.Collapse | backend/src/utils/swaggerGenerator.ts:119 | runs of "_" collapse to one; nothing new appears, and the first character is kept |
| SwaggerGenerator.OperationIdSpec | backend/src/utils/swaggerGenerator.ts:116-123 | the path part holds only letters, digits and single inner "_"; the id is the method, "_" and the path part, lower-cased |
| SwaggerGenerator.CleanPathExample | backend/src/utils/swaggerGenerator.ts:117-120 | "/{id}" cleans to "id" |
| SwaggerGenerator.ExtractTagSegment | backend/src/utils/swaggerGenerator.ts:128-131 | a tag is a named path segment (non-empty, never "{...}"), or "general" |
| SwaggerGenerator.ExtractTagFirst | backend/src/utils/swaggerGenerator.ts:128-131 | the first named segment is the tag, and "{param}" segments are skipped |
| SwaggerGenerator.GenerateParametersSpec | backend/src/utils/swaggerGenerator.ts:136-153 | one parameter per declared one, in order; it is in the query and optional unless it says otherwise, and of type "string" unless it declares one |
| SwaggerGenerator.SecurityRequirementsSpec | backend/src/utils/swaggerGenerator.ts:259-268 | only the raw paths "/usr", "/activo" and "/funcionario" require BearerAuth, so "usr" (written under "/usr") does not |
| SwaggerGenerator.GeneratePaths | backend/src/utils/swaggerGenerator.ts:64-96 | the loop writes each endpoint under its normalized path and lower-cased method |
| SwaggerGenerator.GeneratePathsSpec | backend/src/utils/swaggerGenerator.ts:64-96 | the keys are exactly the normalized endpoint paths, all in "/" and "{name}" form, and each holds the last endpoint's operation per method |
| SwaggerGenerator.TagNamesSpec | backend/src/utils/swaggerGenerator.ts:309-317 | each tag is listed once, and exactly when some endpoint has it |
| SwaggerGenerator.TagNamesPrefix | backend/src/utils/swaggerGenerator.ts:309-317 | tags are listed in first-occurrence order |
| SwaggerGenerator.GenerateTags | backend/src/utils/swaggerGenerator.ts:309-323 | the Map loop gives one "tag operations" object per tag, in insertion order |
| SwaggerGenerator.GroupsSpec | backend/src/utils/swaggerGenerator.ts:374-382 | the groups follow the tag order, and each endpoint is in exactly the group of its tag |
| SwaggerGenerator.GroupIndex | backend/src/utils/swaggerGenerator.ts:378 | finds the group of a tag exactly when there is one |
| SwaggerGenerator.GroupsJoin | backend/src/utils/swaggerGenerator.ts:381 | an endpoint whose tag has a group is pushed onto that group |
| SwaggerGenerator.GroupAppend | backend/src/utils/swaggerGenerator.ts:376-382 | one more endpoint changes only its own tag's group |
| SwaggerGenerator.GroupsOpen | backend/src/utils/swaggerGenerator.ts:378-380 | an endpoint with a new tag opens a group at the end |
| SwaggerGenerator.GroupsStep | backend/src/utils/swaggerGenerator.ts:376-382 | one loop step joins an existing group or opens a new one |
| SwaggerGenerator.GroupEndpoints | backend/src/utils/swaggerGenerator.ts:374-382 | the `has`/`set`/`push` loop computes the grouping |
| SwaggerGenerator.GenerateMarkdownDocumentation | backend/src/utils/swaggerGenerator.ts:368-409 | the page is the header, then for each tag an upper-cased heading and its endpoints' sections |
| ApiHelpers.FirstMatch | backend/src/utils/helpers/apiHelpers.ts:3-24 | nothing is found exactly when no API passes a test; otherwise it finds the first API that passes one |
| ApiHelpers.FindRelevantFirst | backend/src/utils/helpers/apiHelpers.ts:3-24 | the order of the APIs decides, whichever test (keyword, synonym, name or description) the winner passes |
| ApiHelpers.EmptyQueryFindsFirst | backend/src/utils/helpers/apiHelpers.ts:19-21 | the empty query occurs in every name, so it finds the first API |
| ApiHelpers.ValidateAPIConfigSpec | backend/src/utils/helpers/apiHelpers.ts:26-29 | a configuration is valid exactly when id, name, baseUrl and description are all truthy |
| ApiHelpers.IsAPIHealthySpec | backend/src/utils/helpers/apiHelpers.ts:31-33 | the result is truthy exactly when the report is an object whose status is "healthy" |
| ApiValidation.RegistrationSpec | backend/src/middleware/validation/apiValidation.ts:4-27 | the request goes on exactly when the four fields are present, the URL parses and the id matches the pattern; otherwise the first failing check answers 400 with its message |
| ApiValidation.RegistrationRejectsSpacedId | backend/src/middleware/validation/apiValidation.ts:20-24 | an id with a space is refused even when everything else holds |
| ApiValidation.ChatRequestSpec | backend/src/middleware/validation/apiValidation.ts:29-53 | a chat request goes on exactly when the message is a string of 1 to 500 characters and model and apiId are strings or falsy; the message errors come first |
| DataFormatter.FormatListSpec | backend/src/utils/formatters/dataFormatter.ts:1-13 | falsy data and an empty array give their fixed messages; a non-empty array is counted before its JSON; otherwise pretty JSON, absent only for a function |
| DataFormatter.FormatCountSpec | backend/src/utils/formatters/dataFormatter.ts:15-25 | the "Cantidad de" line appears exactly for a number or an object with a `count`; anything else gets the JSON fallback |
| DataFormatter.FormatAPIResponseSpec | backend/src/utils/formatters/dataFormatter.ts:27-38 | no formatter gives compact JSON; "list" and "count" use their renderers with "elementos"; any other name gives pretty JSON |
| ApiQuery.KeptPairsSpec | backend/src/services/api/apiQuery.ts:30-35 | a pair is appended exactly for an entry whose value is neither `undefined` nor `null`, and the query is empty exactly when every value is |
| ApiQuery.BuildQuery | backend/src/services/api/apiQuery.ts:30-35 | the query-string loop computes the kept pairs |
| ApiQuery.RenderEmpty | backend/src/services/api/apiQuery.ts:37 | the rendered query is empty exactly when there are no pairs |
| ApiQuery.FullUrl | backend/src/services/api/apiQuery.ts:37 | "?" and the query are added only when the query is not empty |
| ApiQuery.GetHeaders | backend/src/services/api/apiQuery.ts:171-189 | the record filled step by step equals the header function |
| ApiQuery.HeadersSpec | backend/src/services/api/apiQuery.ts:171-189 | Accept and User-Agent are always set; bearer adds "Authorization: Bearer token"; apiKey sets its header (default "X-API-Key") and changes nothing else |
| ApiQuery.ClassifySpec | backend/src/services/api/apiQuery.ts:43-85 | only a status below 400 gives data; a status of 500 or more keeps its status as an API_RESPONSE_ERROR; other failures are 503 (no answer) or 500 |
| ApiQuery.QueryEndpoint | backend/src/services/api/apiQuery.ts:16-86 | a missing configuration or base URL fails with INVALID_API_CONFIG before any request; otherwise the classified request |
| ApiQuery.RequestedUrl | backend/src/services/api/apiQuery.ts:22-48 | the request goes to the bare URL exactly when no parameter is present, otherwise with the query of the present ones |
| ApiQuery.MapEntityToEndpoint | backend/src/services/api/apiQuery.ts:140-169 | a known entity maps to its table path; any other maps to "/" + entity |
| ApiQuery.MapEntityExamples | backend/src/services/api/apiQuery.ts:142-143 | "usuarios" and "users" both lead to "/usr" |
| ApiQuery.GetSafeConfig | backend/src/services/api/apiQuery.ts:89-99 | the safe copy of a configuration object is an object |
| ApiQuery.GetSafeConfigSpec | backend/src/services/api/apiQuery.ts:89-99 | a set agent is replaced by its placeholder; an unset one and every other property read as in the input |
| ApiManager.QueryAPI | backend/src/services/api/apiManager.ts:129-139 | an unknown id and a missing base URL fail with their messages; otherwise the query service's answer |
| ApiManager.Target | backend/src/services/api/apiManager.ts:159-167 | no target exactly when no API's id or lower-cased name occurs in the question; otherwise the first such API's id |
| ApiManager.MatchAt | backend/src/services/api/apiManager.ts:181 | a match of `(\w+):\s*([^\s]+)` at a position starts there and ends within the text |
| ApiManager.MatchAtShape | backend/src/services/api/apiManager.ts:181 | a match is a key of word characters, ":", optional spaces and a non-empty value with no space |
| ApiManager.Exec | backend/src/services/api/apiManager.ts:183 | `exec` from `lastIndex` finds the leftmost match at or after it, and none when there is none |
| ApiManager.ParametersLast | backend/src/services/api/apiManager.ts:183-185 | a key reads the value of its last match, and keys with no match are absent |
| ApiManager.AnalyzeQuestion | backend/src/services/api/apiManager.ts:142-188 | the target is the first API named; the intent is documentation over count over query; confidence is 5 tenths plus 2, 1 and 1, between 5 and 9; the endpoint is never set; the parameters are the extracted pairs |
| ApiManager.FindTarget | backend/src/services/api/apiManager.ts:161-167 | the loop with `break` finds the first API named |
| ApiManager.ExtractParameters | backend/src/services/api/apiManager.ts:181-185 | the `exec` loop writes exactly the extracted parameters |
| ApiManager.MergeStep | backend/src/services/api/apiManager.ts:184 | writing one pair and then the rest is writing them all |
| ApiQueryTool.ExecuteSpec | backend/src/mcp/server/tools/ApiQueryTool.ts:43-70 | the tool succeeds exactly when the service's query (params defaulting to `{}`) succeeds, and then returns its data; `method` plays no part in the outcome |
| ApiQueryTool.ExecuteFailures | backend/src/mcp/server/tools/ApiQueryTool.ts:43-70 | missing arguments and an unregistered id fail before any request |
| ApiDiscoveryTool.EndpointsMatchSpec | backend/src/mcp/server/tools/ApiDiscoveryTool.ts:60-63 | when every endpoint has a description, the endpoint test throws nothing and holds exactly when some endpoint mentions the query |
| ApiDiscoveryTool.ByQuerySpec | backend/src/mcp/server/tools/ApiDiscoveryTool.ts:52-65 | with every endpoint described, the query filter keeps exactly the APIs that mention the query |
| ApiDiscoveryTool.ByQueryError | backend/src/mcp/server/tools/ApiDiscoveryTool.ts:52-65 | a throw of the query filter comes from an endpoint without a description |
| ApiDiscoveryTool.SliceEnd | backend/src/mcp/server/tools/ApiDiscoveryTool.ts:68 | the end index of `slice(0, limit)` is never past the end; no limit is the whole length, a NaN limit is 0, a limit converting to k >= 0 is min(k, length), and a negative k leaves out min(-k, length) items at the end |
| ApiDiscoveryTool.FilteredSpec | backend/src/mcp/server/tools/ApiDiscoveryTool.ts:42-65 | what the filters keep is registered and passes each filter asked for; a registered API with described endpoints is kept exactly when it passes both |
| ApiDiscoveryTool.ByQueryKeepsMentioned | backend/src/mcp/server/tools/ApiDiscoveryTool.ts:52-65 | a described API that mentions the query survives a query filter that does not throw |
| ApiDiscoveryTool.SameLimit | backend/src/mcp/server/tools/ApiDiscoveryTool.ts:68 | two given limits that convert to the same integer select the same APIs |
| ApiDiscoveryTool.LimitConversions | backend/src/mcp/server/tools/ApiDiscoveryTool.ts:68 | a limit given as the text "n", as " n ", or as the array [n] selects as the number n does; `null` selects as 0 |
| ApiDiscoveryTool.SelectedSpec | backend/src/mcp/server/tools/ApiDiscoveryTool.ts:39-68 | every selected API is registered and passes the filters asked for; the selection is the filtered list cut at `SliceEnd`, so a numeric limit k >= 0 gives exactly the first min(k, n) filtered APIs, and the default limit at most 10 |
| ApiDiscoveryTool.ByQueryKeeps | backend/src/mcp/server/tools/ApiDiscoveryTool.ts:52-65 | what the query filter keeps comes from its input and, when described, mentions the query |
| ApiDiscoveryTool.NoFilterPrefix | backend/src/mcp/server/tools/ApiDiscoveryTool.ts:42-68 | without type or query, the first `limit` registered APIs come back in order, active or not |
| ApiDiscoveryTool.NegativeLimit | backend/src/mcp/server/tools/ApiDiscoveryTool.ts:68 | a negative limit is not clamped: it drops that many APIs from the end |
| ApiDiscoveryTool.AnswerCounts | backend/src/mcp/server/tools/ApiDiscoveryTool.ts:70-73 | the record reports success, the size of the whole registry as `total` and the number returned as `count` |
| ApiResource.ParseUri | backend/src/mcp/server/resources/ApiResource.ts:24-30 | a parsed URI is "api://", an id without "/", "/", and a non-empty endpoint on one line, written back exactly |
| ApiResource.ParseUriInverse | backend/src/mcp/server/resources/ApiResource.ts:24-30 | a URI of that shape parses back to its id and endpoint |
| ApiResource.ReadSpec | backend/src/mcp/server/resources/ApiResource.ts:21-45 | a read succeeds exactly when the URI parses and the query of "/endpoint" succeeds; every failure carries "No se pudo leer el recurso: " |
| ApiResource.EndpointUris | backend/src/mcp/server/resources/ApiResource.ts:52-54 | one URI per endpoint: "api://", the id and the path with no separator added |
| ApiResource.ListUrisSpec | backend/src/mcp/server/resources/ApiResource.ts:47-58 | a URI is listed exactly when it names an endpoint of a registered API |
| ApiResource.ListedUriRoundTrip | backend/src/mcp/server/resources/ApiResource.ts:24-34 | a listed URI whose path starts with "/" parses back to that id and path, so its read queries the endpoint it lists |
| ApiResource.List | backend/src/mcp/server/resources/ApiResource.ts:47-58 | the nested loops push every endpoint's URI in order |
| DatabaseResource.ParseTail | backend/src/mcp/server/resources/DatabaseResource.ts:18 | the type runs up to the first "?", and the tail is written back exactly |
| DatabaseResource.ParseTailInverse | backend/src/mcp/server/resources/DatabaseResource.ts:18 | a well-shaped type and query parse back to themselves |
| DatabaseResource.ParseUri | backend/src/mcp/server/resources/DatabaseResource.ts:18-25 | a parsed URI is well shaped and renders back to the input |
| DatabaseResource.ParseUriInverse | backend/src/mcp/server/resources/DatabaseResource.ts:18-25 | every well-shaped URI parses back to its parts |
| DatabaseResource.QueryGetFirst | backend/src/mcp/server/resources/DatabaseResource.ts:25-43 | a query starting with `key=value` yields that value, whatever follows |
| DatabaseResource.FirstValueAbsent | backend/src/mcp/server/resources/DatabaseResource.ts:25-43 | a query with no pair of that name yields nothing |
| DatabaseResource.AllInfo | backend/src/mcp/server/resources/DatabaseResource.ts:32-35 | `Promise.all` gives every database's info in order, or a failure of one of them |
| DatabaseResource.ReadRejections | backend/src/mcp/server/resources/DatabaseResource.ts:19-85 | an unparsable URI, no manager and an unknown type fail with their messages, wrapped by the read prefix |
| DatabaseResource.ReadMissingTerm | backend/src/mcp/server/resources/DatabaseResource.ts:43-65 | a search or count with a missing or empty term fails before any query |
| DatabaseResource.TermQuery | backend/src/mcp/server/resources/DatabaseResource.ts:43 | "term=t" yields t |
| DatabaseResource.SearchRead | backend/src/mcp/server/resources/DatabaseResource.ts:42-59 | a search URI runs the search with limit 50 and succeeds exactly when it does, with the term, the results and the database |
| DatabaseResource.CountAllRead | backend/src/mcp/server/resources/DatabaseResource.ts:61-77 | a count of "all" answers with the term and the total and per-database record of `countOccurrences` |
| SystemResource.ReadSpec | backend/src/mcp/server/resources/SystemResource.ts:21-58 | a read succeeds exactly for info, memory, cpu and uptime when the report is gathered; its one entry echoes the URI with JSON text; an unknown name fails with that name |
| SystemResource.SchemeNameRead | backend/src/mcp/server/resources/SystemResource.ts:25-53 | "system://" + name reads that name and returns its sanitized report |
| DatabaseSearchTool.SummarizeKeys | backend/src/mcp/server/tools/DatabaseSearchTool.ts:90-103 | the summary lists each database once, and exactly the databases with a hit |
| DatabaseSearchTool.TallyGet | backend/src/mcp/server/tools/DatabaseSearchTool.ts:97-102 | one more hit raises its own database's tables by one and records by its match count, and changes nothing else |
| DatabaseSearchTool.SummarizeGet | backend/src/mcp/server/tools/DatabaseSearchTool.ts:90-111 | each database's entry holds its number of hits and the sum of their match counts |
| DatabaseSearchTool.SearchedStep | backend/src/mcp/server/tools/DatabaseSearchTool.ts:94-97 | a database has been searched after one more hit exactly when it was before or the hit is its own |
| DatabaseSearchTool.NotSearchedZero | backend/src/mcp/server/tools/DatabaseSearchTool.ts:97-99 | a database without hits has no tables and no records |
| DatabaseSearchTool.FormatResults | backend/src/mcp/server/tools/DatabaseSearchTool.ts:81-123 | the `map` that fills the summary and the running total computes the formatted report |
| DatabaseSearchTool.DetailedSpec | backend/src/mcp/server/tools/DatabaseSearchTool.ts:105-110 | a detailed entry keeps the match count and exactly the first min(3, n) of the n records |
| DatabaseSearchTool.FormattedSpec | backend/src/mcp/server/tools/DatabaseSearchTool.ts:90-122 | one entry per database with hits, holding its hits and summed match counts; the entries add up to totalTables and totalRecords |
| DatabaseSearchTool.SummaryTotals | backend/src/mcp/server/tools/DatabaseSearchTool.ts:101-116 | the tables add up to the number of hits and the records to the sum of match counts |
| DatabaseSearchTool.SumPut | backend/src/mcp/server/tools/DatabaseSearchTool.ts:101-102 | setting one database's totals changes the sums by the difference |
| DatabaseSearchTool.SumUpdate | backend/src/mcp/server/tools/DatabaseSearchTool.ts:101-102 | replacing one entry changes the sums by the difference |
| DatabaseSearchTool.RunSpec | backend/src/mcp/server/tools/DatabaseSearchTool.ts:33-79 | a call runs exactly when the term is a string of at least two characters once trimmed and the manager exists; otherwise it returns the failure record |
| DatabaseSearchTool.StatisticsSpec | backend/src/mcp/server/tools/DatabaseSearchTool.ts:35-67 | statistics are null exactly when includeCount is falsy (default true); the limit defaults to 20 |
| Database.DedupSpec | backend/src/config/config/database.config.ts:25-32 | the constructor keeps one pool per configured name: each name once, nothing else |
| Database.ConnectAllSpec | backend/src/config/config/database.config.ts:58-69 | `connectAll` succeeds exactly when every database connects; otherwise it rethrows the first failure in order |
| Database.GroupSpec | backend/src/config/config/database.config.ts:141-147 | each table is grouped once, holding exactly its text columns in row order |
| Database.HitFor | backend/src/config/config/database.config.ts:152-177 | one table contributes at most one result |
| Database.HitForSpec | backend/src/config/config/database.config.ts:153-173 | a table is reported exactly when its query answers with at least one row, with those rows and their number |
| Database.SearchTablesSpec | backend/src/config/config/database.config.ts:150-180 | the hits of a database are those of its grouped tables, a failing table skipped, at most one per table |
| Database.NoTextColumns | backend/src/config/config/database.config.ts:136-138 | a database without text columns has no hits |
| Database.Tag | backend/src/config/config/database.config.ts:102-105 | every hit of a database is tagged with that database's name and otherwise kept |
| Database.SearchAcrossSpec | backend/src/config/config/database.config.ts:95-113 | a cross-database hit is a tagged hit of a database whose search succeeded; a failing database is skipped |
| Database.SearchAcrossTagged | backend/src/config/config/database.config.ts:95-113 | every cross-database hit names one of the searched databases and has a positive match count equal to its rows |
| Strs.Digits | backend/src/config/config/database.config.ts:251 | the digits `parseInt` reads are a prefix of the text, each a digit |
| Database.AddCount | backend/src/config/config/database.config.ts:196-251 | a sum is a number exactly when both terms are (NaN absorbs) |
| Database.PerDatabase | backend/src/config/config/database.config.ts:192-201 | the expected record lists each database with its count, 0 when it failed |
| Database.CountAllRecord | backend/src/config/config/database.config.ts:187-204 | over distinct names `byDatabase` lists every database in order with its count or 0 |
| Database.CountAllTotal | backend/src/config/config/database.config.ts:187-204 | the total is the sum of the recorded counts |
| Database.CountAllSpec | backend/src/config/config/database.config.ts:187-204 | the total is the sum of `byDatabase`, whose keys are exactly the databases |
| Database.DatabaseManager.constructor | backend/src/config/config/database.config.ts:25-32 | the pools are the configured names, each once |
| Database.DatabaseManager.GetPool | backend/src/config/config/database.config.ts:44-49 | the pool is found exactly for a configured name; otherwise it throws "No existe pool para la base: name" |
| Database.DatabaseManager.ConnectAllPools | backend/src/config/config/database.config.ts:58-69 | the loop over the pools computes `connectAll`'s outcome |
| Database.DatabaseManager.SearchInDatabase | backend/src/config/config/database.config.ts:118-185 | the method computes one database's search |
| Database.DatabaseManager.SearchAcrossDatabases | backend/src/config/config/database.config.ts:95-113 | the loop over the pools computes the cross-database search |
| Database.DatabaseManager.CountInDatabase | backend/src/config/config/database.config.ts:206-263 | the method computes one database's count |
| Database.DatabaseManager.CountOccurrences | backend/src/config/config/database.config.ts:187-204 | the loop computes the total and the per-database record |
| Database.GroupRows | backend/src/config/config/database.config.ts:141-147 | the `forEach` that fills `tableColumns` computes the grouping |
| Database.SearchGroups | backend/src/config/config/database.config.ts:152-178 | the loop over the grouped tables computes the tables' hits |
| Database.CountGroups | backend/src/config/config/database.config.ts:237-256 | the loop over the grouped tables sums their counts, skipping failed tables |
| Database.ConnectAbort | backend/src/config/config/database.config.ts:64-67 | a failed connection aborts the loop with its error |
| Database.ConnectErrStays | backend/src/config/config/database.config.ts:64-67 | once the loop has failed, the outcome is that failure |
| Registry.RegisterSpec | backend/src/services/api/apiRegistry.ts:23-34 | registration never overwrites: an existing id gives false and no change; a new id gives true and is stored last, with `active` defaulting to true only when unset; other ids read as before |
| Registry.RegisterAllKeeps | backend/src/services/api/apiRegistry.ts:17-21 | registering more APIs keeps every id already present |
| Registry.RegisterAllCovers | backend/src/services/api/apiRegistry.ts:17-21 | after `initializeAPIs` every configured id is registered |
| Registry.RegisterAllPresent | backend/src/services/api/apiRegistry.ts:17-27 | registering configurations whose ids are all present changes nothing |
| Registry.InitializeIdempotent | backend/src/services/api/apiRegistry.ts:12-21 | a second `initializeAPIs` after the constructor adds nothing |
| Registry.RegisterAllDistinct | backend/src/services/api/apiRegistry.ts:17-34 | registration keeps the ids distinct |
| Registry.UpdateSpec | backend/src/services/api/apiRegistry.ts:49-57 | an unknown id gives false and no change; a known id gets the shallow merge at its old position; other ids read as before |
| Registry.DeleteSpec | backend/src/services/api/apiRegistry.ts:59-65 | delete removes only the given id and reports whether it was there |
| Registry.ActiveOfSpec | backend/src/services/api/apiRegistry.ts:45-47 | an API is in the active list exactly when it is stored and its `active` is set; the list is no longer than the store |
| Registry.ActiveOfAppend | backend/src/services/api/apiRegistry.ts:45-47 | the active list keeps store order: a descriptor stored last comes last in it, when active, and nothing before it changes |
| Registry.ApiRegistry.constructor | backend/src/services/api/apiRegistry.ts:12-15 | the constructor registers every configured API |
| Registry.ApiRegistry.InitializeAPIs | backend/src/services/api/apiRegistry.ts:17-21 | registers each configuration in turn |
| Registry.ApiRegistry.RegisterAPI | backend/src/services/api/apiRegistry.ts:23-34 | the new state and the answer are those of a registration |
| Registry.ApiRegistry.UpdateAPI | backend/src/services/api/apiRegistry.ts:49-57 | the new state and the answer are those of an update |
| Registry.ApiRegistry.DeleteAPI | backend/src/services/api/apiRegistry.ts:59-65 | the new state and the answer are those of a delete |
| Health.LastFor | backend/src/services/health/HealthService.ts:21-31 | the status last recorded for an id belongs to that id |
| Health.RecordSpec | backend/src/services/health/HealthService.ts:18-34 | after a round every checked id reads its latest status, other ids read as before, and no id is removed |
| Health.LastForDistinct | backend/src/services/health/HealthService.ts:18-34 | with distinct ids each status is the latest for its id |
| Health.LastForAbsent | backend/src/services/health/HealthService.ts:18-34 | an id not checked has no new status |
| Health.LastForSome | backend/src/services/health/HealthService.ts:18-34 | every checked id has a latest status |
| Health.RoundCovers | backend/src/services/health/HealthService.ts:14-37 | after a round the cache holds a status for every registered API, its own one when ids are distinct |
| Health.HealthService.constructor | backend/src/services/health/HealthService.ts:9-53 | construction runs the first round of checks into an empty cache |
| Health.HealthService.CheckAllAPIsHealth | backend/src/services/health/HealthService.ts:14-37 | returns one status per registered API in order and records each in the cache |
| Health.RecordStep | backend/src/services/health/HealthService.ts:21-31 | recording one more status is one `set` on the cache |
| Service.QueryPairs | backend/src/services/api/ApiService.ts:63-67 | an object contributes its keys, in order, each with the text of its value; arrays and strings contribute their indices; other values contribute nothing |
| Service.QueryUnknownApi | backend/src/services/api/ApiService.ts:40-43 | an unregistered id fails with "API id no encontrada" before any request |
| Service.QuerySucceeds | backend/src/services/api/ApiService.ts:39-85 | a query succeeds exactly when the API is registered, the URL parses, the response is ok and JSON, and the body parses; the result is the body |
| Service.QueryFailureClasses | backend/src/services/api/ApiService.ts:86-97 | every failure of a registered API is the timeout (exactly when aborted), the certificate message, or "Error consultando API: ..." |
| Service.QueryHeaders | backend/src/services/api/ApiService.ts:45-57 | the request goes to baseUrl + endpoint with the default headers unless the API's own headers set the name |
| Service.CheckAPIHealth | backend/src/services/api/ApiService.ts:103-148 | a status is reported for the id asked |
| Service.StatusOf | backend/src/services/api/ApiService.ts:155-166 | every status belongs to its API and is either healthy or unhealthy |
| Service.StatusesOf | backend/src/services/api/ApiService.ts:150-170 | one status per API, in order |
| Service.HealthClassification | backend/src/services/api/ApiService.ts:103-148 | a registered API is healthy exactly when its health endpoint (default "/health") answers ok; it is unhealthy exactly when an error is recorded |
| Service.ApiService.constructor | backend/src/services/api/ApiService.ts:14-21 | the given registry is used, else a new one holding the configured APIs |
| Service.ApiService.RegisterAPI | backend/src/services/api/ApiService.ts:22-29 | delegates to the registry's registration |
| Service.ApiService.CheckAllAPIsHealth | backend/src/services/api/ApiService.ts:150-170 | the loop gives one status per registered API in registry order |
| Js.ToIntegerSpec | backend/src/mcp/server/tools/ApiDiscoveryTool.ts:68 | the integer conversion `slice` applies: a number is itself; the text "n" or " n " of an integer is n; an array [n] is n; the empty array and `null` are 0; a plain object is NaN |
| Js.IntStrToInteger | backend/src/mcp/local/runmcp-stdio.ts:456 | the text `String(n)` prints for an integer converts back to n |
| Js.DigitsToInteger | backend/src/mcp/local/runmcp-stdio.ts:456 | a run of decimal digits converts to the number it denotes |
| Js.MinusDigitsToInteger | backend/src/mcp/local/runmcp-stdio.ts:456 | a minus sign before decimal digits negates their number |
| Js.PaddedToInteger | backend/src/mcp/local/runmcp-stdio.ts:456 | spaces around a text do not change the number it converts to |
| JsonRpcValidation.IsValidJsonRpcMessage | backend/src/mcp/utils/Validation.ts:2-40 | a message is accepted exactly when it is a well-formed JSON-RPC 2.0 envelope: non-null object, jsonrpc "2.0", id string/number/null/absent, method a string when present, params structured, not both result and error, and an error with a numeric code and a string message |
| JsonRpcValidation.BareEnvelopeAccepted | backend/src/mcp/utils/Validation.ts:2-40 | every member but `jsonrpc` is optional |
| JsonRpcValidation.RejectsNonEnvelope | backend/src/mcp/utils/Validation.ts:3-9 | a non-object, `null`, or a jsonrpc other than "2.0" is rejected |
| JsonRpcValidation.RejectsResultAndError | backend/src/mcp/utils/Validation.ts:23-25 | a message with both a result and an error is rejected |
| JsonRpcValidation.DropFunctionMembers | backend/src/mcp/utils/Validation.ts:48-50 | dropping function members never adds members |
| JsonRpcValidation.DropOrigin | backend/src/mcp/utils/Validation.ts:48-50 | every kept member comes from a non-function member of the input |
| JsonRpcValidation.SanitizeJsonOutput | backend/src/mcp/utils/Validation.ts:42-53 | the round trip fails exactly for a function at the root (it serialises to undefined) |
| JsonRpcValidation.CleanIsJson | backend/src/mcp/utils/Validation.ts:44-52 | below the root every value comes out JSON-clean |
| JsonRpcValidation.DropNoFunctions | backend/src/mcp/utils/Validation.ts:48-50 | with no function members, every member is kept in order |
| JsonRpcValidation.CleanIdentity | backend/src/mcp/utils/Validation.ts:44-52 | a JSON-clean value passes through unchanged |
| JsonRpcValidation.SanitizeProperties | backend/src/mcp/utils/Validation.ts:42-53 | sanitising yields JSON-clean output, keeps clean values, and is idempotent |
| JsonRpcValidation.SanitizeMember | backend/src/mcp/utils/Validation.ts:45-50 | an `undefined` member reads back as null, and every non-function member is kept |
| JsonRpcValidation.DropKeeps | backend/src/mcp/utils/Validation.ts:48-50 | every non-function member survives |
| McpServer.RespondRejects | backend/src/mcp/server/McpServer.ts:126-177 | an invalid message is refused with -32600 and an unknown method with -32601; a valid message is never refused with -32600 |
| McpServer.PingAndCancel | backend/src/mcp/server/McpServer.ts:126-177 | `ping` answers "pong" and `notifications/cancelled` answers `{cancelled: true}`, initialised or not |
| McpServer.InitializeVersion | backend/src/mcp/server/McpServer.ts:180-228 | the negotiated version is the requested one when supported and the default otherwise, always a supported one; the server info echoes the configuration |
| McpServer.ReadResourceSpec | backend/src/mcp/server/McpServer.ts:256-287 | a missing uri and any scheme but api:// and system:// (database:// included) are -32602; the two schemes go to their resources, whose failures are -32603 |
| McpServer.CallToolSpec | backend/src/mcp/server/McpServer.ts:315-353 | only the three named tools succeed; a missing name is -32602, an unknown one -32601, and params that cannot be destructured also end as -32601 |
| McpServer.ReplySpec | backend/src/mcp/server/McpServer.ts:76-124 | a reply goes out unless a valid message has no id; it carries jsonrpc "2.0" and the message's id, or null with -32600 for an invalid message |
| McpServer.RespondStdioSpec | backend/src/mcp/server/McpServer.ts:40-74 | the stdio entry refuses a missing jsonrpc "2.0", id or method with -32600 and otherwise answers as `handleRequest` |
| McpServer.Server.constructor | backend/src/mcp/server/McpServer.ts:25-36 | a new server is not initialised and has no clients and nothing sent |
| McpServer.Server.HandleRequest | backend/src/mcp/server/McpServer.ts:126-228 | the response is the dispatcher's; the flag becomes set by an initialize and is never cleared |
| McpServer.Server.HandleMessage | backend/src/mcp/server/McpServer.ts:76-103 | a valid message registers its socket once and is answered when it has an id; an invalid one gets -32600 with id null |
| McpServer.Server.RemoveClient | backend/src/mcp/server/McpServer.ts:356-358 | removes just that socket and changes nothing else |
| WsTransport.PongedNeverTerminated | backend/src/mcp/transport/WsTransport.ts:19-32 | a connection that pongs between every two ticks is never terminated, and when it is not alive its last ping is still unanswered |
| WsTransport.MissedPongTerminates | backend/src/mcp/transport/WsTransport.ts:20-28 | two ticks with no pong between them terminate the connection and stop its interval; a tick pings exactly when the connection is alive |
| WsTransport.StoppedStaysStopped | backend/src/mcp/transport/WsTransport.ts:21-70 | once the interval is cleared nothing pings and the connection's termination does not change |
| WsTransport.OnFrame | backend/src/mcp/transport/WsTransport.ts:34-60 | an unparsable frame is answered with a parse error; a parsed one goes to the handler exactly when one is registered |
| WsTransport.ParseErrorReplyHasNoId | backend/src/mcp/transport/WsTransport.ts:52-58 | the parse-error reply has no id and carries -32700 with its message |
| WsTransport.Transport.constructor | backend/src/mcp/transport/WsTransport.ts:9-12 | a new transport has no handler, no connections, and has sent nothing |
| WsTransport.Transport.Connect | backend/src/mcp/transport/WsTransport.ts:15-19 | a new socket starts a fresh heartbeat; nothing else changes |
| WsTransport.Transport.OnEvent | backend/src/mcp/transport/WsTransport.ts:20-70 | a tick, pong, close or error steps only that socket's heartbeat, and a ping is recorded when the tick pings |
| WsTransport.Transport.OnFrameReceived | backend/src/mcp/transport/WsTransport.ts:34-60 | a frame is either delivered to the handler or answered with the parse error, and nothing else changes |
| WsTransport.Transport.OnMessage | backend/src/mcp/transport/WsTransport.ts:87-89 | the new handler replaces any earlier one |
| McpClient.Status | backend/src/mcp/client/McpClient.ts:199-209 | "disconnected" exactly without a socket, "connected" exactly when it is open |
| McpClient.StatusInjective | backend/src/mcp/client/McpClient.ts:199-209 | the status names tell the socket's states apart |
| McpClient.Settle | backend/src/mcp/client/McpClient.ts:82-100 | a response settles a request exactly when it parses and carries the numeric id of a pending one; it rejects exactly when it has an error |
| McpClient.SettleSpec | backend/src/mcp/client/McpClient.ts:86-95 | an error response rejects with the error's message; any other resolves with its result |
| McpClient.Reconnect | backend/src/mcp/client/McpClient.ts:57-72 | a reconnection is scheduled exactly below five attempts, and then counts one more; the count never passes five |
| McpClient.ScheduledBound | backend/src/mcp/client/McpClient.ts:57-72 | however many closes arrive without an open, at most five reconnections are scheduled |
| McpClient.Issued | backend/src/mcp/client/McpClient.ts:108 | the ids handed out are 1, 2, ..., n |
| McpClient.IssuedIncreasing | backend/src/mcp/client/McpClient.ts:108 | ids are strictly increasing, so none is reused |
| McpClient.Client.constructor | backend/src/mcp/client/McpClient.ts:6-17 | no socket, id counter 0, nothing pending and no attempts |
| McpClient.Client.Connect | backend/src/mcp/client/McpClient.ts:19-22 | a new socket, still connecting; nothing else changes |
| McpClient.Client.OnOpen | backend/src/mcp/client/McpClient.ts:24-28 | the socket is open and the attempts are reset |
| McpClient.Client.OnClose | backend/src/mcp/client/McpClient.ts:34-72 | the close runs `attemptReconnect`: at most one more reconnection scheduled, pending requests untouched |
| McpClient.Client.Disconnect | backend/src/mcp/client/McpClient.ts:74-80 | the socket is dropped; pending requests stay pending |
| McpClient.Client.SendRequest | backend/src/mcp/client/McpClient.ts:102-134 | without an open socket it fails before any send; otherwise the next id is pending and its request is sent |
| McpClient.Client.HandleMessage | backend/src/mcp/client/McpClient.ts:82-100 | a matching response settles its request once and removes it |
| McpClient.Client.Abandon | backend/src/mcp/client/McpClient.ts:119-132 | a send error or the 30-second timer rejects a still pending request and removes it |
| ToolContent.ContentFlags | backend/src/mcp/mcpminimal.ts:196-207 | only a failed call carries `isError: true`, and its text is "Error: " and the message; a success's text is the answer |
| StdioServer.ApiResources | backend/src/mcp/local/runmcp-stdio.ts:145-152 | one resource per endpoint of the API |
| StdioServer.EndpointResourceUris | backend/src/mcp/local/runmcp-stdio.ts:145-152 | the endpoint resources carry the URIs of the `api://` resource listing, in the same order |
| StdioServer.ListResourcesUris | backend/src/mcp/local/runmcp-stdio.ts:138-181 | one `api://{id}{path}` per endpoint in registry order, then the three system URIs |
| StdioServer.ReadResourceSpec | backend/src/mcp/local/runmcp-stdio.ts:183-282 | an `api://` read needs the URI shape and a registered, active API and then queries "/" + rest; `system://` knows info, apis and health; other schemes are unsupported; every failure carries the prefix |
| StdioServer.SystemNameRead | backend/src/mcp/local/runmcp-stdio.ts:240-273 | a system name reads exactly when it is info, apis or health, else "System resource not found" |
| StdioServer.ApiTools | backend/src/mcp/local/runmcp-stdio.ts:297-327 | one tool per given API |
| StdioServer.ListToolsNames | backend/src/mcp/local/runmcp-stdio.ts:289-360 | the tools are the active APIs' ids in order, then api_discovery and system_info |
| StdioServer.HandleApiToolSpec | backend/src/mcp/local/runmcp-stdio.ts:399-426 | a missing or non-string endpoint and non-object params are refused; otherwise the query of the endpoint with params (default `{}`) decides |
| StdioServer.ClampLimit | backend/src/mcp/local/runmcp-stdio.ts:456 | the limit lies in [1, 100] and a falsy one is 10; otherwise it is NaN exactly when the value converts to NaN, and a value converting to k gives k inside [1, 100], 1 below it and 100 above it |
| StdioServer.ClampLimitText | backend/src/mcp/local/runmcp-stdio.ts:456 | a limit written as the text "n" or " n " with 1 <= n <= 100 gives n |
| StdioServer.Take | backend/src/mcp/local/runmcp-stdio.ts:457 | `slice(0, limit)` keeps a prefix of at most `limit`, and nothing for NaN |
| StdioServer.TypeStageSpec | backend/src/mcp/local/runmcp-stdio.ts:434-438 | the type filter keeps exactly the APIs whose type contains the requested one, and throws for a non-string type |
| StdioServer.QueryStageSpec | backend/src/mcp/local/runmcp-stdio.ts:440-453 | the query filter keeps exactly the APIs that mention the lower-cased query, and throws for a non-string query |
| StdioServer.DiscoveredSpec | backend/src/mcp/local/runmcp-stdio.ts:428-457 | the result is the first clamped-limit APIs of the active list after the type filter and then the query filter; every API returned is registered, active and passes both filters; there are no more than the clamped limit (default 10, 0 counting as missing) |
| StdioServer.DiscoveryRecordCounts | backend/src/mcp/local/runmcp-stdio.ts:462-465 | the record counts what it returns and reports the whole registry as total |
| StdioServer.ApiToolFirst | backend/src/mcp/local/runmcp-stdio.ts:369-372 | an active API of that name is called before the system tools |
| StdioServer.UnknownTool | backend/src/mcp/local/runmcp-stdio.ts:382-396 | any other name is answered with the error text, not a protocol error |
| StdioServer.Shutdown.constructor | backend/src/mcp/local/runmcp-stdio.ts:617 | not shutting down, nothing handled |
| StdioServer.Shutdown.GracefulShutdown | backend/src/mcp/local/runmcp-stdio.ts:619-633 | a signal runs the shutdown only when none ran it before |
| StdioServer.Shutdown.Signals | backend/src/mcp/local/runmcp-stdio.ts:615-637 | however many signals arrive, the shutdown runs once, for the first |
| LegacyServer.Configs | backend/src/mcp/mcpServer.ts:10-25 | two entries, sabi then rh, whose base URLs follow `SABI_BASE_URL` or fall back to the fixed host |
| LegacyServer.ToolsListed | backend/src/mcp/mcpServer.ts:50-82 | the tool list advertises exactly `query_api` and `get_api_info` |
| LegacyServer.FindByName | backend/src/mcp/mcpServer.ts:162 | the first configuration of that name, and none exactly when no configuration has it |
| LegacyServer.HandleInfoSpec | backend/src/mcp/mcpServer.ts:146-177 | a missing name fails; "all" lists every configuration's summary in order; another name succeeds exactly when a configuration has it |
| LegacyServer.InfoAllOrder | backend/src/mcp/mcpServer.ts:155-160 | the i-th summary of "all" holds the name, base URL and description of the i-th configuration |
| LegacyServer.CallToolSpec | backend/src/mcp/mcpServer.ts:85-118 | a call is flagged `isError` exactly when its handler failed, with "Error: " and the message; an unknown name fails with "Herramienta no encontrada" |
| LegacyServer.QueryEchoes | backend/src/mcp/mcpServer.ts:121-144 | `query_api` succeeds exactly when a question is given, and its text opens by echoing the question |
| MinimalServer.GetAPI | backend/src/mcp/mcpminimal.ts:44-46 | the first API of that id, and none exactly when no API has it |
| MinimalServer.QueryAPI | backend/src/mcp/mcpminimal.ts:48-72 | an unknown id fails before any request; otherwise the request to base URL + path decides, with an HTTP, no-response or setup message on failure |
| MinimalServer.FailureMessagesDistinct | backend/src/mcp/mcpminimal.ts:63-70 | the three failure kinds are told apart by the opening of their message |
| MinimalServer.HandleQueryEndpointSpec | backend/src/mcp/mcpminimal.ts:175-194 | both ids are required and the endpoint must start with "/" before any request; success means the query with `parameters` (default `{}`) succeeded |
| MinimalServer.CallToolSpec | backend/src/mcp/mcpminimal.ts:140-155 | failures and unknown tools are answered with the `isError` flag, never rejected; `list_apis` answers with the API list |
| IaService.FindEndpointsSpec | backend/src/services/ia/iaService.ts:174-188 | at most five endpoints, the first of the relevant ones in order, each given and relevant, and all of them when there are no more than five |
| IaService.ShortWordsFindNothing | backend/src/services/ia/iaService.ts:177-185 | a question of words of at most three characters finds nothing |
| IaService.PathWordRelevant | backend/src/services/ia/iaService.ts:178-185 | a word longer than three characters that occurs in the endpoint's path makes it relevant |
| IaService.EndpointUsageAnalysis | backend/src/services/ia/iaService.ts:190-216 | no endpoints gives the fixed answer, otherwise the language model's answer |
| StringHelpers.TruncateStringSpec | backend/src/utils/helpers/stringHelpers.ts:1-4 | a string within the limit is returned unchanged; a longer one keeps exactly its first `maxLength` characters and gains "..." |
| StringHelpers.CapitalizeFirstSpec | backend/src/utils/helpers/stringHelpers.ts:6-8 | the length is kept, only the first character changes, to upper case, and capitalising is idempotent |
| StringHelpers.ReplaceCharSpec | backend/src/utils/helpers/stringHelpers.ts:12 | a replacement without the pattern leaves none behind and keeps every other character |
| StringHelpers.ReplaceCharAbsent | backend/src/utils/helpers/stringHelpers.ts:12 | a string without the pattern is left as it is |
| StringHelpers.EscapeForLogSpec | backend/src/utils/helpers/stringHelpers.ts:11-13 | an escaped string holds no raw newline or tab, and escaping again changes nothing |
| StringHelpers.SanitizedSafe | backend/src/utils/helpers/stringHelpers.ts:10-26 | a sanitised value keeps its shape and keys and holds no raw newline or tab anywhere |
| StringHelpers.SanitizedIdempotent | backend/src/utils/helpers/stringHelpers.ts:10-26 | sanitising twice equals sanitising once |
| StringHelpers.SanitizeForLog | backend/src/utils/helpers/stringHelpers.ts:10-26 | the loop over elements and own keys builds exactly the sanitised value |
| ChatController.ApiKeywordsSpec | backend/src/controllers/chat.controller.ts:103-122 | sabi and trendvoto have their fixed lists (27 and 33 words); any other API its id and lower-cased name; the id is always a keyword |
| ChatController.FindById | backend/src/controllers/chat.controller.ts:81 | the first API of that id, and none exactly when no API has it |
| ChatController.DetermineTarget | backend/src/controllers/chat.controller.ts:80-85 | a non-empty target naming a registered API gives exactly that API |
| ChatController.DetermineDetected | backend/src/controllers/chat.controller.ts:80-97 | without a usable target, the APIs whose keywords the question contains, or every API when none matches |
| ChatController.DetectedById | backend/src/controllers/chat.controller.ts:91-97 | an API whose id occurs in the lower-cased question is always among the relevant ones |
| ChatController.FirstKeyword | backend/src/controllers/chat.controller.ts:197-202 | the position of the first table keyword the question contains, and none exactly when it contains none |
| ChatController.SelectCantidadEndpoint | backend/src/controllers/chat.controller.ts:177-202 | the loop with `break` picks the path of the first keyword contained, or "/cantidad" |
| ChatController.RequiredKeywordsContainMaintenance | backend/src/controllers/chat.controller.ts:186-189 | each keyword of the maintenance-requirement endpoint contains "mantenimiento" |
| ChatController.RequiredEndpointUnreachable | backend/src/controllers/chat.controller.ts:177-202 | as written, no question selects "/cantidad/req_mantenimiento" |
| ChatController.EndpointSkip | backend/src/controllers/chat.controller.ts:197-202 | entries the question does not touch, placed first, do not change the choice |
| ChatController.EndpointIgnore | backend/src/controllers/chat.controller.ts:197-202 | entries the question does not touch, placed last, do not change the choice |
| ChatController.SpecificFirstTableEntries | backend/src/controllers/chat.controller.ts:177-191 | the corrected table holds the same entries as the table as written |
| ChatController.SpecificFirstRequired | backend/src/controllers/chat.controller.ts:177-202 | with the corrected table, naming a maintenance-requirement keyword reaches that endpoint |
| ChatController.SpecificFirstOthers | backend/src/controllers/chat.controller.ts:177-202 | with the corrected table, every other question goes where the table as written sends it |
| ChatController.ProcessAIAnswerSpec | backend/src/controllers/chat.controller.ts:583-607 | a listing question keeps the structured part or the first 5000 characters; any other answer is cut at 1000 with "...", so it never exceeds 1003 |
| ChatController.LinesErr | backend/src/controllers/chat.controller.ts:315-329 | once an item's line throws, the whole `forEach` throws with that error |
| ChatController.LinesOk | backend/src/controllers/chat.controller.ts:315-329 | the rendering succeeds exactly when every item's line does |
| ChatController.AroundTwice | backend/src/controllers/chat.controller.ts:314-330 | text appended before and after a rendering composes |
| ChatController.AppendLines | backend/src/controllers/chat.controller.ts:315-329 | the `forEach` appends each item's line to the response and stops at the first that throws |
| ChatController.SeverityClasses | backend/src/controllers/chat.controller.ts:366-376 | zero is optimal, up to 3 low, up to 7 medium, up to 10 high, more critical; the class never drops as the count grows; a negative count is low |
| ChatController.EndpointTypeSpec | backend/src/controllers/chat.controller.ts:309 | a path under "/cantidad/" gives its type, and the bare "/cantidad" is kept |
| ChatController.FormatBrands | backend/src/controllers/chat.controller.ts:312-332 | the imperative brand listing gives the brand answer |
| ChatController.FormatBuildings | backend/src/controllers/chat.controller.ts:334-344 | the imperative building listing gives the building answer |
| ChatController.FormatAssetList | backend/src/controllers/chat.controller.ts:346-358 | the imperative asset listing gives the asset-list answer |
| ChatController.FormatMaintenance | backend/src/controllers/chat.controller.ts:360-400 | the imperative maintenance rendering gives the maintenance answer |
| ChatController.FormatGeneral | backend/src/controllers/chat.controller.ts:414-430 | the imperative default rendering gives the general answer |
| ChatController.FormatCantidadResponse | backend/src/controllers/chat.controller.ts:306-432 | the switch on the endpoint type, with each `forEach` a loop, gives the count answer |
| ChatController.MaintenanceSeverity | backend/src/controllers/chat.controller.ts:362-376 | a severity number prints the figure and then its class's verdict |
| ChatController.CantidadNumbersAndNull | backend/src/controllers/chat.controller.ts:306-432 | a number renders on every endpoint; `null` throws on every endpoint |
| ChatController.CantidadDefaultTotal | backend/src/controllers/chat.controller.ts:416-417 | on "/cantidad" a number is the total |
| ChatController.BrandsRender | backend/src/controllers/chat.controller.ts:313-329 | a brand list renders exactly when every brand's lines do |
| ChatController.ColumnsSpec | backend/src/controllers/chat.controller.ts:555-556 | at most the first five keys of the first item, and only `undefined` and `null` have no keys to give |
| ChatController.CellSpec | backend/src/controllers/chat.controller.ts:565-568 | a cell has at most 30 characters, starts its value's text and keeps it whole when short enough; null and undefined are "N/A" |
| ChatController.ListFooterSpec | backend/src/controllers/chat.controller.ts:572-574 | the footer is there exactly when there are more than ten items |
| ChatController.FormatListResponse | backend/src/controllers/chat.controller.ts:534-581 | the imperative listing gives the list answer |
| ChatController.RenderListTable | backend/src/controllers/chat.controller.ts:555-576 | the table part of the listing |
| ChatController.RenderRows | backend/src/controllers/chat.controller.ts:559-570 | the heading and the rows of the first ten items |
| ChatController.ListResponseSpec | backend/src/controllers/chat.controller.ts:534-576 | falsy data and a missing or empty array have their messages; otherwise a heading of at most five columns, a row for each of the first ten items, and the footer exactly beyond ten |

## Left out

- Network, database drivers, the language model and HTTP: `fetch`, `axios`, the `pg` pools, the WebSocket library and the model providers are parameters (oracle functions or the outcome a call produced); timeouts, retries and back-off are events or not modelled.
- Timers and the clock: the heartbeat interval, the reconnect delay, the 30-second request timeout and the health-check interval are explicit event methods; timestamps and measured response times are left out of every record.
- The protocol SDK's `Server`, its transports and request schemas are not modelled; the handlers registered with it are.
- Numbers are integers: fractions, `NaN` and the infinities are not modelled, so the question analysis keeps its confidence in tenths.
- `JSON.parse`, `new URL`, `URLSearchParams` and the regular expressions of `processAIAnswer` (lines 590-599 of the chat controller) are parameters or an opaque structured part; query strings are kept as pair lists without percent-encoding.
- Case mapping covers ASCII letters only; the runtime's full Unicode mapping is not modelled.
- Messages the JavaScript engine produces for a `TypeError` are fixed constants.
- Objects have only their own properties in enumeration order; prototype keys and the engine's reordering of integer-like keys are not modelled.
- `SystemResource`'s platform, memory, CPU and uptime figures are a parameter; only the dispatch and envelope are modelled.
- Logging, configuration loading and the environment are left out; `SABI_BASE_URL` is a parameter of the legacy server.
- `utils/errorHandler.ts` does not export the `APIError` class that `apiQuery.ts` uses; the model takes it as its call sites use it, with a message, a status and a code.
- `config/apis.config` is not part of this model: `ApiTypes.ApiConfig` stands in for its `APIConfig` type.
- The HTTP controllers' plumbing, `handleApiQuestion`, `getDataFromRelevantAPIs`, `queryAPIForQuestion`'s network flow, `buildMultisystemPrompt` and `getSystemsSummary` are network and prompt composition around the modelled selection and formatting rules.
- `apiManager.ts`'s `getAPI` discovery, `getAPIDocumentation`, `getConsolidatedDocumentation`, `countEntities` and `getConsolidatedAPIInfo`, and `apiQuery.ts`'s `countEntities` and `queryWithFilters`, are compositions of network calls.
- `iaService.ts`'s analysis and summary operations other than the keyword search and the empty-list answer call the language model.
- `swaggerGenerator.ts`'s `generateOpenAPIDocument`, `generateSchemas`, `generateStandardResponses`, the export functions and `testSabiConnection` build fixed documents, write files or call the network; `generateResponses` is the fixed document `SwaggerGenerator.SwaggerResponses`, about which nothing beyond its construction is stated.
- The runnable servers' `run`/`start`/`stop`, the stdio `Logger` and `ServiceManager`, and `runmcp.ts`'s HTTP application are process wiring.
- The McpClient convenience calls (`queryApi`, `discoverApis`, `callTool`, the resource readers, `listTools`, `ping`, `initialize`) are one `sendRequest` each.
- The frontend, the type-only files, demos and tests are outside the backend core.
- StringHelpers.TruncateStringSpec: states the contract for non-negative limits; a negative limit cuts to "..." as `substring` clamps, which the function models but no lemma states.
- StdioServer.ClampLimit: `Math.max` keeps a fractional text limit such as "2.5" as it is and only `slice` truncates it, so the metadata limit the source reports is 2.5 where the model reports 2.
- Js.StringToInteger: of the number syntax `Number` accepts, exponents ("1e2"), "Infinity", the "0o" and "0b" prefixes, a fraction without an integer part (".5") and white space other than the listed separators are not read; such texts convert to NaN in the model.
- Strings are sequences of code points, whereas JavaScript lengths count UTF-16 units: a text of 300 "😀" has length 600 in the source and 300 in the model. This shifts the bounds that depend on a length: the 500-character message limit of `apiValidation.ts:37` (`ApiValidation.ValidateChatRequest`), the 1000- and 5000-character truncations (`StringHelpers.TruncateString`, `ChatController.ProcessAIAnswer`), the 30-character table cell (`ChatController.Cell`), the two-character search term of `DatabaseSearchTool.ts:37` and the keyword length test of `iaService.ts:183`, for texts outside the Basic Multilingual Plane; a cut in the model also never splits a surrogate pair, where `substring` can.
- ChatController.ProcessAIAnswerSpec: the structured part found by the regular expressions is a parameter, so nothing is stated about its shape.
- SwaggerGenerator.GenerateParametersSpec: `ApiTypes.ParamConfig` has no `enum`, `default` or `example` members, so those schema fields are not produced.

## Findings

| source | as written | input that shows it | evidently intended | confidence | as-written member | corrected member |
|---|---|---|---|---|---|---|
| backend/src/controllers/chat.controller.ts:177-202 | the keyword table tries "mantenimiento" before the three keywords of "/cantidad/req_mantenimiento", each of which contains it, and the search stops at the first keyword contained | the question "req_mantenimiento" selects "/cantidad/mantenimiento"; no question reaches "/cantidad/req_mantenimiento" | the most specific keyword wins, so those three keywords reach their endpoint | high, not executed | ChatController.RequiredEndpointUnreachable | ChatController.SpecificFirstRequired |

The corrected table (`ChatController.SpecificFirstTable`) holds the same entries with the three maintenance-requirement keywords first. `ChatController.SpecificFirstOthers` proves every other question keeps its endpoint. `ChatController.SelectCantidadEndpoint` searches whichever table it is given.

Other behaviour of the source that the model keeps as written, with a lemma each: `SwaggerGenerator.SecurityRequirementsSpec` compares the raw endpoint path, so "usr" without a leading "/" gets no security requirement; `ApiDocumenter.KeyCollision` shows two APIs whose ids hold ":" can share a consolidated key; `ChatController.SeverityClasses` classes a negative count as low.
