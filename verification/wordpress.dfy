/**
 What the detector takes from its WordPress environment, as plain values: the
 HTTP GET behind `wp_remote_get`, `json_decode`, `sanitize_text_field`, and the
 running site's own `get_bloginfo`/`get_rest_url` answers.
 */
module WordPress {
  import opened Json

  /** What `wp_remote_get` returns: a `WP_Error` (its code and message) or a response whose body is read. */
  datatype Response = TransportError(code: string, message: string) | Body(body: string)

  /** The running site, as `get_bloginfo('name')`, `get_bloginfo('description')`, `get_bloginfo('url')` and `get_rest_url()` report it. */
  datatype LocalSite = LocalSite(name: string, description: string, url: string, restUrl: string)

  datatype Platform = Platform(
    http: string -> Response,     // the response a GET of the URL gets
    decode: string -> Json,       // json_decode($body, true); invalid JSON decodes to JNull
    sanitize: string -> string,   // sanitize_text_field
    local: LocalSite
  )
}
