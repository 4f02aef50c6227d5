/**
 * What `requests.get(url, timeout=31)` can do, seen from the client: the
 * network is a log of the URLs requested so far and an oracle that says how
 * the n-th request ends.
 */
module Transport {
  import opened Json

  newtype byte = x: int | 0 <= x < 256

  /** `json.loads(res.text)`: a value, or a JSONDecodeError. */
  datatype Body = Parsed(value: Json) | Unparsable

  /** How one HTTP request ends. */
  datatype Outcome =
      /** requests.exceptions.ConnectionError (ConnectTimeout included), with str() of it. */
    | Unreachable(cause: string)
      /** requests.exceptions.Timeout that is not a connection error (a read timeout). */
    | TimedOut
      /** Any other requests exception, by class name; the client does not catch these. */
    | Failed(exception: string)
      /** A response: status code, raw content and the JSON reading of its text. */
    | Response(status: int, content: seq<byte>, body: Body)

  class Network {
    /** Every URL requested through this network, oldest first. */
    var log: seq<string>
    /** How the n-th request, to the given URL, ends. */
    const reply: (nat, string) -> Outcome

    constructor (reply: (nat, string) -> Outcome)
      ensures log == [] && this.reply == reply
    {
      log := [];
      this.reply := reply;
    }

    /** One GET request. */
    method Get(url: string) returns (o: Outcome)
      modifies this
      ensures log == old(log) + [url]
      ensures o == reply(|old(log)|, url)
    {
      o := reply(|log|, url);
      log := log + [url];
    }
  }
}
