/** What a middleware or a view hands back to the web framework. */
module Web {

  /** A response produced by the core itself. */
  datatype Response =
    | Redirect(location: string)   // HTTP 302 to a path
    | Render(template: string)     // a page rendered from a template
    | Forbidden                    // PermissionDenied, shown as HTTP 403

  /** The outcome of one middleware: either it answers the request itself,
      or it calls the rest of the chain and returns that response unchanged. */
  datatype Step = Continue | Respond(response: Response)
}
