/**
 * The session client (`HttpUtil`): GET and POST over a persistent cookie jar.
 * The network is not modelled; what the remote answers is given in advance as
 * a script of replies, consumed one per request (an exhausted script answers
 * None, as a timeout does), and every request issued is recorded in a ghost
 * trace.
 */
module Http {
  import opened Wrappers
  import opened Html

  /** A response: its status code, its text, and the tree lxml builds from that text. */
  datatype Response = Response(status: int, text: Option<string>, soup: seq<Node>)

  /** What a request returns: a response, or None when the transport failed. */
  type Reply = Option<Response>

  /** `bool(response)`: requests makes a response false exactly when its status is an error, from 400 to 599. */
  predicate Answered(r: Reply) {
    r.Some? && !(400 <= r.value.status < 600)
  }

  /** `r and r.status_code == 200`. */
  predicate Ok200(r: Reply) {
    r.Some? && r.value.status == 200
  }

  type Jar = map<string, string>
  type Form = map<string, string>

  datatype Request = Get(url: string) | Post(url: string, form: Form)

  /** The state of a session: its cookie jar, the replies still to come, the requests issued so far. */
  datatype Net = Net(cookies: Jar, replies: seq<Reply>, trace: seq<Request>)

  /** One request: it is recorded and answered with the next scripted reply. */
  function Exchange(n: Net, rq: Request): (Reply, Net) {
    if n.replies == [] then (None, n.(trace := n.trace + [rq]))
    else (n.replies[0], n.(replies := n.replies[1..], trace := n.trace + [rq]))
  }

  /** What `set_cookies` may be given: a `dict`, an instance of a subclass of `dict`, or anything else. */
  datatype CookieArg = PlainDict(entries: Jar) | DerivedDict(entries: Jar) | NotADict

  class Session {
    var cookies: Jar
    var replies: seq<Reply>
    ghost var trace: seq<Request>

    ghost function State(): Net
      reads this
    {
      Net(cookies, replies, trace)
    }

    constructor (script: seq<Reply>)
      ensures State() == Net(map[], script, [])
    {
      cookies := map[];
      replies := script;
      trace := [];
    }

    method Get(url: string) returns (r: Reply)
      modifies this
      ensures (r, State()) == Exchange(old(State()), Request.Get(url))
    {
      r := Next();
      trace := trace + [Request.Get(url)];
    }

    method Post(url: string, form: Form) returns (r: Reply)
      modifies this
      ensures (r, State()) == Exchange(old(State()), Request.Post(url, form))
    {
      r := Next();
      trace := trace + [Request.Post(url, form)];
    }

    method Next() returns (r: Reply)
      modifies this
      ensures r == (if old(replies) == [] then None else old(replies)[0])
      ensures replies == (if old(replies) == [] then [] else old(replies)[1..])
      ensures cookies == old(cookies) && trace == old(trace)
    {
      if replies == [] {
        r := None;
      } else {
        r := replies[0];
        replies := replies[1..];
      }
    }

    /** `cookies.get_dict()`. */
    function GetDict(): Jar
      reads this
    {
      cookies
    }

    /** `cookies.update(c)`: every entry of `c` is set, the others are kept. */
    method Update(c: Jar)
      modifies this
      ensures State() == old(State()).(cookies := old(cookies) + c)
    {
      cookies := cookies + c;
    }
  }
}
