/**
 * What the responder promises, stated over `Responder.Resolve` (and so, by
 * `Responder.Process`'s postcondition, over the handler's own steps).
 */
module ResponderProperties {
  import opened Wrappers
  import opened Text
  import opened Requests
  import opened Sectors
  import opened Responder

  /** The same request without the named query options. */
  function Without<S>(req: Request<S>, names: set<string>): Request<S> {
    req.(query := req.query - names)
  }

  /** Absent flags take their defaults: no sector-relative coordinates, a header, and metadata unless uploaded. */
  lemma OptionDefaults<S>(req: Request<S>, svc: Services<S>)
    requires "sscoords" !in req.query && "metadata" !in req.query && "header" !in req.query
    requires Resolve(req, svc).Serialize?
    ensures var r := Resolve(req, svc); !r.sscoords && r.includeHeader && (r.includeMetadata <==> req.httpMethod != "POST")
  {
  }

  /** Linting is off unless asked for: without `lint` the upload's defects change nothing. */
  lemma LintDefaultsOff<S>(req: Request<S>, svc: Services<S>)
    requires req.httpMethod == "POST" && "lint" !in req.query
    ensures Resolve(req, svc) == Resolve(req.(upload := Upload(req.upload.sector, [])), svc)
  {
  }

  /** The flags handed to the serializer are the options' values, except that an upload never carries metadata. */
  lemma SerializerFlags<S>(req: Request<S>, svc: Services<S>)
    requires Resolve(req, svc).Serialize?
    ensures var r := Resolve(req, svc);
      && r.sscoords == GetBoolOption(req, svc.parsers, "sscoords", false)
      && r.includeHeader == GetBoolOption(req, svc.parsers, "header", true)
      && (r.includeMetadata <==> req.httpMethod != "POST" && GetBoolOption(req, svc.parsers, "metadata", true))
      && r.mediaType == GetStringOption(req, "type")
  {
  }

  /** A POST is always an upload: `sx`, `sy` and `sector` are not even looked at. */
  lemma PostIgnoresIdentifiers<S>(req: Request<S>, svc: Services<S>)
    requires req.httpMethod == "POST"
    ensures Resolve(req, svc) == Resolve(Without(req, {"sx", "sy", "sector"}), svc)
  {
  }

  /** An upload that passes (no lint, or a clean lint) is the sector that goes on to filtering and serializing. */
  lemma UploadAccepted<S>(req: Request<S>, svc: Services<S>)
    requires req.httpMethod == "POST"
    requires !Lint(req, svc) || req.upload.defects == []
    ensures Identify(req, svc) == Success(req.upload.sector)
    ensures Resolve(req, svc).Serialize? ==> Resolve(req, svc).sector == req.upload.sector
  {
  }

  /** A linted upload with defects is refused with 400, and the message reports every defect. */
  lemma LintRejects<S>(req: Request<S>, svc: Services<S>)
    requires req.httpMethod == "POST" && Lint(req, svc) && req.upload.defects != []
    ensures var r := Resolve(req, svc);
      && r.Error? && r.status == BadRequest && r.reason == "Bad Request"
      && forall k :: 0 <= k < |req.upload.defects| ==> Contains(r.message, req.upload.defects[k])
  {
    var defects := req.upload.defects;
    forall k | 0 <= k < |defects|
      ensures Contains(LogText(defects), defects[k])
    {
      LogTextContainsEach(defects, k);
    }
  }

  /** With only one of `sx` and `sy`, the coordinates are ignored and the `sector` option decides. */
  lemma LocationNeedsBoth<S>(req: Request<S>, svc: Services<S>)
    requires req.httpMethod != "POST"
    requires HasOption(req, "sx") != HasOption(req, "sy")
    ensures Resolve(req, svc) == Resolve(Without(req, {"sx", "sy"}), svc)
  {
  }

  /** Coordinates the map knows identify their sector, and that sector is the one serialized. */
  lemma LocationFound<S>(req: Request<S>, svc: Services<S>, sector: S)
    requires req.httpMethod != "POST" && HasOption(req, "sx") && HasOption(req, "sy")
    requires svc.sectorMap.fromLocation(GetIntOption(req, svc.parsers, "sx", 0), GetIntOption(req, svc.parsers, "sy", 0)) == Some(sector)
    ensures Identify(req, svc) == Success(sector)
    ensures Resolve(req, svc).Serialize? ==> Resolve(req, svc).sector == sector
  {
  }

  /** A complete coordinate pair is tried before the name: when both are given, `sector` makes no difference. */
  lemma LocationBeatsName<S>(req: Request<S>, svc: Services<S>)
    requires req.httpMethod != "POST" && HasOption(req, "sx") && HasOption(req, "sy")
    ensures Resolve(req, svc) == Resolve(Without(req, {"sector"}), svc)
  {
  }

  /** Coordinates that name no sector give 404 with a message quoting them as "sx,sy". */
  lemma LocationNotFound<S>(req: Request<S>, svc: Services<S>)
    requires req.httpMethod != "POST" && HasOption(req, "sx") && HasOption(req, "sy")
    requires svc.sectorMap.fromLocation(GetIntOption(req, svc.parsers, "sx", 0), GetIntOption(req, svc.parsers, "sy", 0)).None?
    ensures var r := Resolve(req, svc);
      && r.Error? && r.status == NotFound && r.reason == "Not Found"
      && Contains(r.message, IntToDecimal(GetIntOption(req, svc.parsers, "sx", 0)) + "," + IntToDecimal(GetIntOption(req, svc.parsers, "sy", 0)))
  {
  }

  /** A name that names no sector gives 404 with a message quoting the name. */
  lemma NameNotFound<S>(req: Request<S>, svc: Services<S>)
    requires req.httpMethod != "POST" && !(HasOption(req, "sx") && HasOption(req, "sy")) && HasOption(req, "sector")
    requires svc.sectorMap.fromName(req.query["sector"]).None?
    ensures var r := Resolve(req, svc);
      r.Error? && r.status == NotFound && r.reason == "Not Found" && Contains(r.message, req.query["sector"])
  {
  }

  /** A name the map knows identifies its sector, and that sector is the one serialized. */
  lemma NameFound<S>(req: Request<S>, svc: Services<S>, sector: S)
    requires req.httpMethod != "POST" && !(HasOption(req, "sx") && HasOption(req, "sy")) && HasOption(req, "sector")
    requires svc.sectorMap.fromName(req.query["sector"]) == Some(sector)
    ensures Identify(req, svc) == Success(sector)
    ensures Resolve(req, svc).Serialize? ==> Resolve(req, svc).sector == sector
  {
  }

  /**
   * "No sector specified." is the answer exactly when there is no upload, no
   * coordinate pair and no name. For uploads the "only if" half rests on the
   * modelled log text ending in a line break (`LogText`), so that a lint
   * failure never reads as this message.
   */
  lemma NoSectorSpecified<S>(req: Request<S>, svc: Services<S>)
    ensures Resolve(req, svc) == Error(BadRequest, "Bad Request", NoSectorMessage)
        <==> CriteriaOf(req) == Unspecified
    ensures CriteriaOf(req) == Unspecified
        <==> req.httpMethod != "POST" && !(HasOption(req, "sx") && HasOption(req, "sy")) && !HasOption(req, "sector")
  {
    var r := Resolve(req, svc);
    if r == Error(BadRequest, "Bad Request", NoSectorMessage) && CriteriaOf(req) != Unspecified {
      var m := NoSectorMessage;
      assert m[0] == 'N' && m[|m| - 1] == '.';
      match Identify(req, svc)
      case Failure(f) =>
        if CriteriaOf(req) == ByUpload {
          LogTextEndsWithNewline(req.upload.defects);
        }
        assert false;
      case Success(sector) =>
        assert false;
    }
  }

  /** `subsector` is consulted first: when it is given, `quadrant` makes no difference. */
  lemma SubsectorTakesPriority<S>(req: Request<S>, svc: Services<S>)
    requires HasOption(req, "subsector")
    ensures Resolve(req, svc) == Resolve(Without(req, {"quadrant"}), svc)
  {
  }

  /** A subsector the sector does not know gives 404 with a message quoting it. */
  lemma UnknownSubsector<S>(req: Request<S>, svc: Services<S>, sector: S)
    requires Identify(req, svc) == Success(sector)
    requires HasOption(req, "subsector") && svc.indexing.subsectorIndexFor(sector, req.query["subsector"]) == -1
    ensures var r := Resolve(req, svc);
      r.Error? && r.status == NotFound && r.reason == "Not Found" && Contains(r.message, req.query["subsector"])
  {
  }

  /** An unknown quadrant is the caller's mistake: 400 with a message quoting it, never 404. */
  lemma InvalidQuadrant<S>(req: Request<S>, svc: Services<S>, sector: S)
    requires Identify(req, svc) == Success(sector)
    requires !HasOption(req, "subsector") && HasOption(req, "quadrant")
    ensures Resolve(req, svc).Error? ==> Resolve(req, svc).status == BadRequest
    ensures svc.indexing.quadrantIndexFor(req.query["quadrant"]) == -1 ==>
      var r := Resolve(req, svc);
      r.Error? && r.status == BadRequest && r.reason == "Bad Request" && Contains(r.message, req.query["quadrant"])
  {
  }

  /** Without a qualifier a resolved sector is serialized whole. */
  lemma NoQualifierNoFilter<S>(req: Request<S>, svc: Services<S>, sector: S)
    requires Identify(req, svc) == Success(sector)
    requires !HasOption(req, "subsector") && !HasOption(req, "quadrant")
    ensures Resolve(req, svc).Serialize? && Resolve(req, svc).filter == Unfiltered
  {
  }

  /** Any index other than -1 is accepted: the sector is serialized, filtered by that index. */
  lemma KnownQualifierFilters<S>(req: Request<S>, svc: Services<S>, sector: S)
    requires Identify(req, svc) == Success(sector)
    ensures HasOption(req, "subsector") ==>
      var index := svc.indexing.subsectorIndexFor(sector, req.query["subsector"]);
      index != -1 ==> Resolve(req, svc).Serialize? && Resolve(req, svc).filter == BySubsector(index)
    ensures !HasOption(req, "subsector") && HasOption(req, "quadrant") ==>
      var index := svc.indexing.quadrantIndexFor(req.query["quadrant"]);
      index != -1 ==> Resolve(req, svc).Serialize? && Resolve(req, svc).filter == ByQuadrant(index)
  {
  }

  /** The filter keeps exactly the worlds whose subsector (or quadrant) index is the one the qualifier resolved to. */
  lemma FilterAcceptsExactly<S>(req: Request<S>, svc: Services<S>, w: World)
    requires Resolve(req, svc).Serialize?
    ensures var r := Resolve(req, svc);
      if HasOption(req, "subsector") then
        var index := svc.indexing.subsectorIndexFor(r.sector, req.query["subsector"]);
        index != -1 && (Accepts(r.filter, w) <==> w.subsector == index)
      else if HasOption(req, "quadrant") then
        var index := svc.indexing.quadrantIndexFor(req.query["quadrant"]);
        index != -1 && (Accepts(r.filter, w) <==> w.quadrant == index)
      else
        Accepts(r.filter, w)
  {
  }

  /** "SecondSurvey" and "TabDelimited" are written in UTF-8 without a byte-order mark, everything else in code page 1252. */
  lemma EncodingFollowsType<S>(req: Request<S>, svc: Services<S>)
    requires Resolve(req, svc).Serialize?
    ensures Resolve(req, svc).encoding == Utf8NoBom
        <==> "type" in req.query && (req.query["type"] == "SecondSurvey" || req.query["type"] == "TabDelimited")
    ensures Resolve(req, svc).encoding == Windows1252
        <==> "type" !in req.query || (req.query["type"] != "SecondSurvey" && req.query["type"] != "TabDelimited")
  {
  }

  /** The `type` option never causes or prevents an error here; an unknown format is left to the serializer. */
  lemma TypeNeverRejected<S>(req: Request<S>, svc: Services<S>, t: string)
    ensures var r, r' := Resolve(req, svc), Resolve(req.(query := req.query["type" := t]), svc);
      (r.Error? <==> r'.Error?) && (r.Error? ==> r == r')
  {
    var other := req.(query := req.query["type" := t]);
    assert Identify(other, svc) == Identify(req, svc);
    match Identify(req, svc)
    case Failure(_) =>
    case Success(sector) =>
      assert BuildFilter(other, svc, sector) == BuildFilter(req, svc, sector);
  }
}
