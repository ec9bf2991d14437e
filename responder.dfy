/**
 * The SEC data responder: from one request it decides which sector is meant,
 * looks it up, narrows it to a subsector or quadrant, picks the output
 * encoding, and either hands all of that to the serializer or answers with
 * an HTTP error.
 *
 * `Resolve` states the decision as a function, stage by stage; `Process`
 * makes it the way the handler does, step by step with early returns, and
 * is proved to agree with `Resolve`.
 */
module Responder {
  import opened Wrappers
  import opened Text
  import opened Requests
  import opened Sectors

  /** "Bad Request", section 15.5.1 of RFC 9110. */
  const BadRequest: int := 400
  /** "Not Found", section 15.5.5 of RFC 9110. */
  const NotFound: int := 404

  /** Everything the handler calls but this model does not define. */
  datatype Services<!S> = Services(parsers: OptionParsers, sectorMap: SectorMap<S>, indexing: SectorIndexing<S>)

  /**
   * What the handler ends with: an error sent to the client, or a call of the
   * sector's serializer with these arguments (its output then sent in `encoding`).
   */
  datatype Outcome<S> =
    | Error(status: int, reason: string, message: string)
    | Serialize(sector: S, mediaType: Option<string>, includeMetadata: bool, includeHeader: bool,
                sscoords: bool, filter: WorldFilter, encoding: TextEncoding)

  /** The ways a request can name its sector, in the order they are tried. */
  datatype Criteria = ByUpload | ByLocation | ByName | Unspecified

  const NoSectorMessage: string := "No sector specified."

  function LocationNotFoundMessage(sx: int, sy: int): (m: string)
    ensures Contains(m, IntToDecimal(sx) + "," + IntToDecimal(sy))
  {
    ContainsInfix("The sector at ", IntToDecimal(sx) + "," + IntToDecimal(sy), " was not found.");
    "The sector at " + (IntToDecimal(sx) + "," + IntToDecimal(sy)) + " was not found."
  }

  /** "The specified <what> '<input>' <verdict>", the shape of the name, subsector and quadrant messages. */
  function SpecifiedMessage(what: string, input: string, verdict: string): (m: string)
    ensures Contains(m, input)
  {
    ContainsInfix("The specified " + what + " '", input, "' " + verdict);
    ("The specified " + what + " '") + input + ("' " + verdict)
  }

  /** First match wins: a POST, then a complete `sx`/`sy` pair, then `sector`. */
  function CriteriaOf<S>(req: Request<S>): Criteria {
    if req.httpMethod == "POST" then ByUpload
    else if HasOption(req, "sx") && HasOption(req, "sy") then ByLocation
    else if HasOption(req, "sector") then ByName
    else Unspecified
  }

  /** Whether the upload is parsed with an error log attached (`lint`, off by default). */
  function Lint<S>(req: Request<S>, svc: Services<S>): bool {
    GetBoolOption(req, svc.parsers, "lint", false)
  }

  /** The sector the request names, or the error that ends the request. */
  function Identify<S>(req: Request<S>, svc: Services<S>): Result<S, Outcome<S>> {
    match CriteriaOf(req)
    case ByUpload =>
      if Lint(req, svc) && req.upload.defects != [] then Failure(Error(BadRequest, "Bad Request", LogText(req.upload.defects)))
      else Success(req.upload.sector)
    case ByLocation =>
      var sx := GetIntOption(req, svc.parsers, "sx", 0);
      var sy := GetIntOption(req, svc.parsers, "sy", 0);
      (match svc.sectorMap.fromLocation(sx, sy)
       case None => Failure(Error(NotFound, "Not Found", LocationNotFoundMessage(sx, sy)))
       case Some(sector) => Success(sector))
    case ByName =>
      var name := req.query["sector"];
      (match svc.sectorMap.fromName(name)
       case None => Failure(Error(NotFound, "Not Found", SpecifiedMessage("sector", name, "was not found.")))
       case Some(sector) => Success(sector))
    case Unspecified =>
      Failure(Error(BadRequest, "Bad Request", NoSectorMessage))
  }

  /** The world filter the request asks for within `sector`; `subsector` is consulted before `quadrant`. */
  function BuildFilter<S>(req: Request<S>, svc: Services<S>, sector: S): Result<WorldFilter, Outcome<S>> {
    if HasOption(req, "subsector") then
      var name := req.query["subsector"];
      var index := svc.indexing.subsectorIndexFor(sector, name);
      if index == -1 then Failure(Error(NotFound, "Not Found", SpecifiedMessage("subsector", name, "was not found."))) else Success(BySubsector(index))
    else if HasOption(req, "quadrant") then
      var name := req.query["quadrant"];
      var index := svc.indexing.quadrantIndexFor(name);
      if index == -1 then Failure(Error(BadRequest, "Bad Request", SpecifiedMessage("quadrant", name, "is invalid."))) else Success(ByQuadrant(index))
    else
      Success(Unfiltered)
  }

  /** The whole decision for one request. */
  function Resolve<S>(req: Request<S>, svc: Services<S>): (r: Outcome<S>)
    ensures r.Error? ==> (r.status == BadRequest && r.reason == "Bad Request") || (r.status == NotFound && r.reason == "Not Found")
    ensures r.Serialize? && req.httpMethod == "POST" ==> !r.includeMetadata
  {
    var sscoords := GetBoolOption(req, svc.parsers, "sscoords", false);
    var metadata := GetBoolOption(req, svc.parsers, "metadata", true);
    var header := GetBoolOption(req, svc.parsers, "header", true);
    match Identify(req, svc)
    case Failure(error) => error
    case Success(sector) =>
      match BuildFilter(req, svc, sector)
      case Failure(error) => error
      case Success(filter) =>
        var mediaType := GetStringOption(req, "type");
        var includeMetadata := metadata && CriteriaOf(req) != ByUpload;
        Serialize(sector, mediaType, includeMetadata, header, sscoords, filter, EncodingFor(mediaType))
  }

  /** The handler's own sequence of steps; sending an error or a result is returning it. */
  method Process<S>(req: Request<S>, svc: Services<S>) returns (response: Outcome<S>)
    ensures response == Resolve(req, svc)
  {
    var sector: S;

    var sscoords := GetBoolOption(req, svc.parsers, "sscoords", false);
    var includeMetadata := GetBoolOption(req, svc.parsers, "metadata", true);
    var includeHeader := GetBoolOption(req, svc.parsers, "header", true);

    if req.httpMethod == "POST" {
      var lint := GetBoolOption(req, svc.parsers, "lint", false);
      var errors: seq<string> := if lint then req.upload.defects else [];
      sector := req.upload.sector;
      if lint && errors != [] {
        return Error(BadRequest, "Bad Request", LogText(errors));
      }
      includeMetadata := false;
    } else if HasOption(req, "sx") && HasOption(req, "sy") {
      var sx := GetIntOption(req, svc.parsers, "sx", 0);
      var sy := GetIntOption(req, svc.parsers, "sy", 0);
      var found := svc.sectorMap.fromLocation(sx, sy);
      if found.None? {
        return Error(NotFound, "Not Found", LocationNotFoundMessage(sx, sy));
      }
      sector := found.value;
    } else if HasOption(req, "sector") {
      var sectorName := req.query["sector"];
      var found := svc.sectorMap.fromName(sectorName);
      if found.None? {
        return Error(NotFound, "Not Found", SpecifiedMessage("sector", sectorName, "was not found."));
      }
      sector := found.value;
    } else {
      return Error(BadRequest, "Bad Request", NoSectorMessage);
    }

    var filter := Unfiltered;
    if HasOption(req, "subsector") {
      var subsector := req.query["subsector"];
      var index := svc.indexing.subsectorIndexFor(sector, subsector);
      if index == -1 {
        return Error(NotFound, "Not Found", SpecifiedMessage("subsector", subsector, "was not found."));
      }
      filter := BySubsector(index);
    } else if HasOption(req, "quadrant") {
      var quadrant := req.query["quadrant"];
      var index := svc.indexing.quadrantIndexFor(quadrant);
      if index == -1 {
        return Error(BadRequest, "Bad Request", SpecifiedMessage("quadrant", quadrant, "is invalid."));
      }
      filter := ByQuadrant(index);
    }

    var mediaType := GetStringOption(req, "type");
    var encoding := EncodingFor(mediaType);

    response := Serialize(sector, mediaType, includeMetadata, includeHeader, sscoords, filter, encoding);
  }
}
