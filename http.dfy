/**
  The HTTP request the SDK hands to its client: a URL, a method and, for a
  POST, a JSON body.  Sending it is not part of this model.
 */
module Http {
  import opened Wrappers

  datatype HttpMethod = Get | Post

  datatype HttpRequest = HttpRequest(url: string, verb: HttpMethod, body: Option<string>)
}
