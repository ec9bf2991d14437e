# SEC responder of the Traveller Map server, modelled in Dafny

This project models the request handling of the map server's `sec` endpoint
(`SECHandler.Responder.Process`). The endpoint returns one sector's data. It
works in five steps:

1. It reads the `sscoords`, `metadata` and `header` flags.
2. It decides how the request names its sector: a POST upload (optionally
   linted), an `sx`/`sy` coordinate pair, or a `sector` name, first match
   winning.
3. It looks the sector up, or answers 400 "Bad Request" / 404 "Not Found"
   (sections 15.5.1 and 15.5.5 of RFC 9110).
4. It builds a world filter from `subsector` (checked first) or `quadrant`.
5. It picks UTF-8 without a byte-order mark for the `SecondSurvey` and
   `TabDelimited` formats and Windows code page 1252 for everything else,
   then hands the sector to its serializer.

Files and modules:

- `wrappers.dfy` (`Wrappers`): `Option` (the source's nullable references) and `Result`.
- `text.dfy` (`Text`): the decimal rendering `string.Format` gives an `int`, with its inverse and round trip; the text of a lint error log; the `Contains` relation the message contracts use.
- `requests.dfy` (`Requests`): the request (method, query options, what the body parser yields) and the option accessors of the handler base class.
- `sectors.dfy` (`Sectors`): worlds, the world filter and `Accepts`, the two encodings and `EncodingFor`, and the sector-map and index lookups as supplied functions.
- `responder.dfy` (`Responder`):
  - `Resolve` is the decision as a function, built in stages: `CriteriaOf`, `Identify`, `BuildFilter`, `EncodingFor`.
  - `Process` is the handler's own step-by-step method, with its reassignments of `includeMetadata` and `filter` and its early returns. It is proved equal to `Resolve`.
- `properties.dfy` (`ResponderProperties`): the handler's promises, stated as lemmas about `Resolve`.

The outcome of a request is an `Outcome`. It is either `Error(status, reason,
message)`, which stands for the `SendError` call, or `Serialize(...)`, which
stands for the arguments of `Sector.Serialize` and the encoding passed to
`SendResult`. Everything the handler calls but does not define is a parameter:

- the option parsers of the base class;
- `SectorMap.FromLocation` and `SectorMap.FromName`;
- `Sector.SubsectorIndexFor` and `Sector.QuadrantIndexFor`;
- the upload parser. It is given as the sector it builds and the defects an attached error log would record.

Because `Resolve` is a function of the request and these collaborators, the
same request against the same sector map always gets the same outcome.

## Model

| member | source | states |
|---|---|---|
| `Responder.Process` | server/api/SECHandler.cs:21-122 | the handler's steps (option reads, the POST / coordinates / name / error chain with early returns, the filter and encoding assignments) produce exactly the outcome `Resolve` specifies |
| `Responder.Resolve` | server/api/SECHandler.cs:21-122 | every error is 400 "Bad Request" or 404 "Not Found", never another pairing; a serialized upload never includes metadata |
| `Responder.LocationNotFoundMessage` | server/api/SECHandler.cs:55 | the coordinate not-found message contains the coordinates as "sx,sy" in decimal |
| `Responder.SpecifiedMessage` | server/api/SECHandler.cs:66 | the "The specified ... '<input>' ..." messages for an unknown name (line 66), an unknown subsector (line 83) and an invalid quadrant (line 94) contain the offending input |
| `Text.IntToDecimalRoundTrip` | server/api/SECHandler.cs:55 | the decimal text of an integer reads back as that integer |
| `Text.IntToDecimalInjective` | server/api/SECHandler.cs:55 | distinct coordinates render as distinct texts, so the message identifies them |
| `Text.LogTextContainsEach` | server/api/SECHandler.cs:37-41 | every defect recorded by the error log appears in the log's text |
| `ResponderProperties.OptionDefaults` | server/api/SECHandler.cs:30-32 | with the flags absent, `sscoords` is false, `header` is true, and `metadata` is true exactly when the request is not a POST |
| `ResponderProperties.SerializerFlags` | server/api/SECHandler.cs:30-32 | the serializer gets the `sscoords` and `header` options and the `type` text as given; it gets the `metadata` option on any request that is not a POST, and false after an upload (line 44) |
| `ResponderProperties.LintDefaultsOff` | server/api/SECHandler.cs:36-37 | without a `lint` option no log is kept, so an upload's defects do not change the outcome |
| `ResponderProperties.PostIgnoresIdentifiers` | server/api/SECHandler.cs:34 | a POST takes the upload branch whatever `sx`, `sy` and `sector` say |
| `ResponderProperties.UploadAccepted` | server/api/SECHandler.cs:36-44 | an unlinted or cleanly linted upload identifies the uploaded sector, which is the one serialized |
| `ResponderProperties.LintRejects` | server/api/SECHandler.cs:39-42 | a linted upload with defects ends in 400 "Bad Request", and the message contains every defect |
| `ResponderProperties.LocationNeedsBoth` | server/api/SECHandler.cs:46 | with only one of `sx`, `sy` the coordinates are ignored and the outcome is that of the request without them |
| `ResponderProperties.LocationFound` | server/api/SECHandler.cs:46-58 | coordinates the map knows identify the sector it returns, and that sector is the one serialized |
| `ResponderProperties.LocationBeatsName` | server/api/SECHandler.cs:46-59 | with both `sx` and `sy` given (and no POST), the `sector` option makes no difference |
| `ResponderProperties.LocationNotFound` | server/api/SECHandler.cs:48-57 | coordinates the map does not know end in 404 "Not Found" with a message containing "sx,sy" |
| `ResponderProperties.NameNotFound` | server/api/SECHandler.cs:59-68 | a name the map does not know ends in 404 "Not Found" with a message containing the name |
| `ResponderProperties.NameFound` | server/api/SECHandler.cs:59-69 | a name the map knows identifies the sector it returns, and that sector is the one serialized |
| `ResponderProperties.NoSectorSpecified` | server/api/SECHandler.cs:70-73 | the outcome is 400 "No sector specified." if and only if the request is not a POST and has neither a coordinate pair nor a `sector` |
| `ResponderProperties.SubsectorTakesPriority` | server/api/SECHandler.cs:77-88 | when `subsector` is given, `quadrant` makes no difference |
| `ResponderProperties.UnknownSubsector` | server/api/SECHandler.cs:80-85 | a subsector index of -1 ends in 404 "Not Found" with a message containing the subsector |
| `ResponderProperties.InvalidQuadrant` | server/api/SECHandler.cs:88-96 | a quadrant index of -1 ends in 400 "Bad Request" with a message containing the quadrant; the quadrant step never answers 404 |
| `ResponderProperties.NoQualifierNoFilter` | server/api/SECHandler.cs:76 | without `subsector` or `quadrant` a resolved sector is serialized unfiltered |
| `ResponderProperties.KnownQualifierFilters` | server/api/SECHandler.cs:77-98 | for an identified sector, a subsector (or, without one, a quadrant) whose index is not -1 is accepted, and the sector is serialized filtered by that index |
| `ResponderProperties.FilterAcceptsExactly` | server/api/SECHandler.cs:86-97 | the filter keeps a world exactly when its subsector (or quadrant) index equals the resolved index, and keeps every world when there is no qualifier |
| `ResponderProperties.EncodingFollowsType` | server/api/SECHandler.cs:100-111 | `type` "SecondSurvey" or "TabDelimited" selects UTF-8 without BOM; any other or absent `type` selects code page 1252 |
| `ResponderProperties.TypeNeverRejected` | server/api/SECHandler.cs:100-111 | setting `type` to any text never causes or removes an error, and leaves any error unchanged |

## Left out

- Creating `ResourceManager` and loading the default `SectorMap` (lines 26-27) reloads shared global state from resources. The map is a supplied lookup instead.
- Reading the POST body stream and its content media type (line 38) is stream I/O and a foreign parser. It is given as the parsed sector plus the defects a lint log would record. The model assumes the parser builds the same sector whether or not a log is attached. The model also assumes line 38 always yields a sector. In the source it can throw instead: the `ContentType` constructor rejects the empty content type of a POST without that header, and the sector parser may fail on a body it cannot read. Such a request ends in an unhandled exception there, while the model answers it like any other upload.
- `Sector.Serialize`, the `StringWriter` buffer and the emission by `SendResult`/`SendError` (lines 41, 55, 66, 72, 83, 94, 113-121) are serialization and transport. They are represented only by the outcome value.
- `GetBoolOption`, `GetIntOption`, `GetStringOption` and `HasOption` live in a base class that is not part of this model. Presence is membership in the query map. Value parsing is a supplied function, and an absent or unparseable value gives the default.
- `SectorMap.FromLocation`, `SectorMap.FromName`, `Sector.SubsectorIndexFor` and `Sector.QuadrantIndexFor` are not part of this model. Name normalisation, such as case-insensitivity, is theirs.
- The concrete `Encoding` objects are two tags.
- The `ErrorLogger` text format is not part of this model. Its text is modelled as one line per recorded entry, which is enough to state that every defect is reported. The "only if" half of `ResponderProperties.NoSectorSpecified` for uploads rests on this format, since a log text ends in a line break and so never equals "No sector specified.".
- `string.Format` renders an `int` culture-independently here, as a minus sign followed by digits. The 32-bit range of `sx` and `sy` is not modelled: the handler does no arithmetic on them.
- The responder is a class only to carry the HTTP context, and `Process` updates none of its fields. It is modelled as a method that takes the request and returns the outcome.
- The source treats only the index -1 as "unknown". Any other index, including another negative one, is accepted as a filter index, and the model does the same.
