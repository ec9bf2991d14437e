/**
 * The request the responder reads: its HTTP method, its query options, and
 * what the body parser makes of an uploaded body. How option text is turned
 * into a boolean or an integer belongs to the handler base class, so it is
 * supplied from outside as `OptionParsers`.
 */
module Requests {
  import opened Wrappers

  /**
   * What the sector parser builds from a POST body: the sector, and the
   * defects an error log would record if one were attached to the parse.
   */
  datatype Upload<S> = Upload(sector: S, defects: seq<string>)

  /** `upload` is what the body parser yields; only a POST request consults it. */
  datatype Request<S> = Request(httpMethod: string, query: map<string, string>, upload: Upload<S>)

  /** Text-to-value conversions of the base class; `None` means the text does not parse. */
  datatype OptionParsers = OptionParsers(parseBool: string -> Option<bool>, parseInt: string -> Option<int>)

  predicate HasOption<S>(req: Request<S>, name: string) {
    name in req.query
  }

  /** The option's text, or `None` (the source's null) when it is absent. */
  function GetStringOption<S>(req: Request<S>, name: string): Option<string> {
    if name in req.query then Some(req.query[name]) else None
  }

  /** The option as a boolean; the default when it is absent or does not parse. */
  function GetBoolOption<S>(req: Request<S>, parsers: OptionParsers, name: string, default: bool): bool {
    if name in req.query && parsers.parseBool(req.query[name]).Some? then parsers.parseBool(req.query[name]).value
    else default
  }

  /** The option as an integer; the default when it is absent or does not parse. */
  function GetIntOption<S>(req: Request<S>, parsers: OptionParsers, name: string, default: int): int {
    if name in req.query && parsers.parseInt(req.query[name]).Some? then parsers.parseInt(req.query[name]).value
    else default
  }
}
