/**
 * The status registry: a fixed table from status code to reason phrase, and
 * Status.from_code, which builds the (value, description) pair for a code.
 *
 * The table in the source is a Ruby hash literal written with `"100": ...`
 * syntax, which makes every key a Symbol, while from_code fetches with the
 * String `code.to_s`. Key records which of the two a key is, so that the model
 * can state both behaviours: FromCodeAsWritten is the source's lookup and is
 * proved never to hit the table; FromCode looks the code up with a key of the
 * table's own kind, as evidently intended, and is what the rest of the model uses.
 */
module Status {
  import opened Wrappers
  import opened RubyText

  /** A hash key: a Symbol or a String with the same spelling are different keys. */
  datatype Key = Sym(name: string) | Str(text: string)

  /**
   * The reason phrases of the STATUSES hash, by the code each key spells: the
   * 62 entries from 100 to 511, and None for a code the hash does not list.
   */
  function Phrase(code: int): Option<string>
  {
    match code
    case 100 => Some("Continue")
    case 101 => Some("Switching Protocols")
    case 102 => Some("Processing")
    case 200 => Some("OK")
    case 201 => Some("Created")
    case 202 => Some("Accepted")
    case 203 => Some("Non-Authoritative Information")
    case 204 => Some("No Content")
    case 205 => Some("Reset Content")
    case 206 => Some("Partial Content")
    case 207 => Some("Multi-Status")
    case 208 => Some("Already Reported")
    case 226 => Some("IM Used")
    case 300 => Some("Multiple Choices")
    case 301 => Some("Moved Permanently")
    case 302 => Some("Found")
    case 303 => Some("See Other")
    case 304 => Some("Not Modified")
    case 305 => Some("Use Proxy")
    case 307 => Some("Temporary Redirect")
    case 308 => Some("Permanent Redirect")
    case 400 => Some("Bad Request")
    case 401 => Some("Unauthorized")
    case 402 => Some("Payment Required")
    case 403 => Some("Forbidden")
    case 404 => Some("Not Found")
    case 405 => Some("Method Not Allowed")
    case 406 => Some("Not Acceptable")
    case 407 => Some("Proxy Authentication Required")
    case 408 => Some("Request Timeout")
    case 409 => Some("Conflict")
    case 410 => Some("Gone")
    case 411 => Some("Length Required")
    case 412 => Some("Precondition Failed")
    case 413 => Some("Payload Too Large")
    case 414 => Some("URI Too Long")
    case 415 => Some("Unsupported Media Type")
    case 416 => Some("Range Not Satisfiable")
    case 417 => Some("Expectation Failed")
    case 421 => Some("Misdirected Request")
    case 422 => Some("Unprocessable Entity")
    case 423 => Some("Locked")
    case 424 => Some("Failed Dependency")
    case 425 => Some("Unassigned")
    case 426 => Some("Upgrade Required")
    case 427 => Some("Unassigned")
    case 428 => Some("Precondition Required")
    case 429 => Some("Too Many Requests")
    case 430 => Some("Unassigned")
    case 431 => Some("Request Header Fields Too Large")
    case 500 => Some("Internal Server Error")
    case 501 => Some("Not Implemented")
    case 502 => Some("Bad Gateway")
    case 503 => Some("Service Unavailable")
    case 504 => Some("Gateway Timeout")
    case 505 => Some("HTTP Version Not Supported")
    case 506 => Some("Variant Also Negotiates")
    case 507 => Some("Insufficient Storage")
    case 508 => Some("Loop Detected")
    case 509 => Some("Unassigned")
    case 510 => Some("Not Extended")
    case 511 => Some("Network Authentication Required")
    case _ => None
  }

  /**
   * The STATUSES hash exactly as written, as a lookup: the entry under a key, or
   * None when the hash has no such key. Every key is a Symbol whose name is the
   * decimal form of a listed code, so a Symbol finds an entry exactly when its
   * name is such a form; a String finds none.
   */
  function Statuses(key: Key): (entry: Option<string>)
    ensures key.Str? ==> entry.None?
    ensures entry != Some("Unknown")
  {
    match key
    case Str(_) => None
    case Sym(name) =>
      match ParseInt(name)
      case None => None
      case Some(code) => if IntToS(code) == name then Phrase(code) else None
  }

  /** What from_code returns: the code as a string and its reason phrase. */
  datatype Status = Status(value: string, description: string)

  /** STATUSES.fetch(key, default): the entry under the key, or the default when there is none. */
  function Fetch(key: Key, default: string): string
  {
    match Statuses(key)
    case Some(phrase) => phrase
    case None => default
  }

  /** Status.from_code as written: the table is fetched with the String form of the code. */
  function FromCodeAsWritten(code: int, description: Option<string>): (r: Status)
    ensures r.value == IntToS(code)
    ensures description.Some? ==> r.description == description.value
    ensures description.None? ==> r.description == "Unknown"
  {
    var phrase := if description.None? then Fetch(Str(IntToS(code)), "Unknown") else description.value;
    Status(IntToS(code), phrase)
  }

  /** Status.from_code with the lookup key of the table's own kind (the code as a Symbol). */
  function FromCode(code: int, description: Option<string>): (r: Status)
    ensures r.value == IntToS(code) && ParseInt(r.value) == Some(code)
    ensures description.Some? ==> r.description == description.value
    ensures Statuses(Sym(r.value)) == Phrase(code)
    ensures description.None? && Phrase(code).Some? ==> r.description == Phrase(code).value
    ensures description.None? ==> (r.description == "Unknown" <==> Phrase(code).None?)
  {
    IntToSRoundTrip(code);
    var phrase := if description.None? then Fetch(Sym(IntToS(code)), "Unknown") else description.value;
    Status(IntToS(code), phrase)
  }

  /** No String is a key of STATUSES, so the as-written lookup always falls back to "Unknown". */
  lemma AsWrittenNeverHitsTable(code: int)
    ensures forall text :: Statuses(Str(text)).None?
    ensures FromCodeAsWritten(code, None).description == "Unknown"
  {
  }

  /** The input that shows the discrepancy: 404 is listed, yet the as-written lookup says "Unknown". */
  lemma AsWrittenMisses404()
    ensures Statuses(Sym(IntToS(404))) == Some("Not Found")
    ensures FromCodeAsWritten(404, None).description == "Unknown"
    ensures FromCode(404, None).description == "Not Found"
  {
    IntToSRoundTrip(404);
  }

  /** Table hits of the intended lookup for 404 and 201. */
  lemma FromCodeHitsTable()
    ensures FromCode(404, None).description == "Not Found"
    ensures FromCode(201, None).description == "Created"
  {
  }

  /** The commonest answer, 200: "OK" under the intended lookup, "Unknown" as written, both with value "200". */
  lemma OkUnderBothLookups()
    ensures FromCode(200, None) == Status("200", "OK")
    ensures FromCodeAsWritten(200, None) == Status("200", "Unknown")
  {
    assert IntToS(200) == "200";
  }

  /** The entries 425, 427, 430 and 509 read "Unassigned", which differs from the miss result. */
  lemma UnassignedEntries(code: int)
    requires code in {425, 427, 430, 509}
    ensures FromCode(code, None).description == "Unassigned"
    ensures FromCode(code, None).description != "Unknown"
  {
    assert Phrase(code) == Some("Unassigned") by {
      if code == 425 {
      } else if code == 427 {
      } else if code == 430 {
      } else {
      }
    }
  }

  /** An unlisted code such as 999 resolves to "Unknown" instead of failing. */
  lemma FromCodeUnlistedIsUnknown()
    ensures FromCode(999, None) == Status("999", "Unknown")
  {
    assert IntToS(999) == "999";
  }
}
