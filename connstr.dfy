/**
 * Redaction of a connection string before it is logged (getRedactedConnStr).
 * URL parsing and printing belong to Go's net/url package; they are parameters here:
 * `parse` is the partial parser (None for a parse error), `render` prints a URL back.
 */
module ConnStr {
  import opened Wrappers

  /** The fixed placeholder that replaces a password, or the whole string when it does not parse. */
  const MASK: string := "****"

  /**
   * A parsed connection URL: the user name and password of its user info, and everything
   * else (host, path, query; also a whole key=value connection string, which parses as a path).
   */
  datatype ConnUrl = ConnUrl(username: string, password: Option<string>, rest: string)

  /** The URL with a set password replaced by the placeholder; the user name is kept. */
  function Redact(u: ConnUrl): (v: ConnUrl)
    ensures v.username == u.username && v.rest == u.rest
    ensures v.password.Some? <==> u.password.Some?
    ensures v.password.Some? ==> v.password.value == MASK
    ensures u.password.None? ==> v == u
  {
    if u.password.Some? then u.(password := Some(MASK)) else u
  }

  /** getRedactedConnStr: the string to log in place of `s`. */
  function RedactedConnStr(s: string, parse: string -> Option<ConnUrl>, render: ConnUrl -> string): (r: string)
    ensures parse(s).None? ==> r == MASK
    ensures parse(s).Some? && parse(s).value.password.None? ==> r == render(parse(s).value)
    ensures parse(s).Some? && parse(s).value.password.Some? ==>
              r == render(ConnUrl(parse(s).value.username, Some(MASK), parse(s).value.rest))
  {
    match parse(s)
    case None => MASK
    case Some(u) => render(Redact(u))
  }

  /** Printing a URL and parsing the text back gives the same URL. */
  ghost predicate RoundTrips(parse: string -> Option<ConnUrl>, render: ConnUrl -> string)
  {
    forall u :: parse(render(u)) == Some(u)
  }

  /**
   * What can be read back out of the logged string: the same user name and the same
   * rest of the URL, and a user-info password only if there was one, and then only the
   * placeholder. Only the user-info password is masked: a password written in key=value
   * form or as a query parameter is part of `rest` and is kept as printed.
   */
  lemma RedactedConnStrHidesPassword(s: string, parse: string -> Option<ConnUrl>, render: ConnUrl -> string)
    requires RoundTrips(parse, render)
    requires parse(s).Some?
    ensures parse(RedactedConnStr(s, parse, render)).Some?
    ensures var u, v := parse(s).value, parse(RedactedConnStr(s, parse, render)).value;
              v.username == u.username && v.rest == u.rest &&
              v.password == (if u.password.Some? then Some(MASK) else None)
  {
    var u := parse(s).value;
    assert parse(render(Redact(u))) == Some(Redact(u));
  }

  /** A string that is already the printed form of its parse and carries no password is logged as is. */
  lemma RedactedConnStrKeepsPasswordless(s: string, parse: string -> Option<ConnUrl>, render: ConnUrl -> string)
    requires parse(s).Some? && parse(s).value.password.None?
    requires render(parse(s).value) == s
    ensures RedactedConnStr(s, parse, render) == s
  {
  }

  /** Redacting the logged form of a parsable string changes nothing more. */
  lemma RedactedConnStrIdempotent(s: string, parse: string -> Option<ConnUrl>, render: ConnUrl -> string)
    requires RoundTrips(parse, render)
    requires parse(s).Some?
    ensures RedactedConnStr(RedactedConnStr(s, parse, render), parse, render) == RedactedConnStr(s, parse, render)
  {
    var u := parse(s).value;
    assert parse(render(Redact(u))) == Some(Redact(u));
  }
}
