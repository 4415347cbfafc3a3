/**
 * The connection configuration `MongoDB.__init__` stores in `_config`: the host
 * and the port given directly, or the two halves of an `endpoint` "host:port".
 */
module Configuration {
  import opened Wrappers
  import opened Python

  /** `{'host': host, 'port': int(port)}`. */
  datatype Config = Config(host: Py, port: int)

  /**
   * The configuration built from the constructor's `host`, `port` and `endpoint`
   * arguments, or the exception raised while building it: AttributeError when the
   * endpoint is not a string, ValueError when it does not split into exactly two
   * parts on ':' or its port part is not a number, and whatever `int(port)` raises.
   */
  function ParseConfig(host: Py, port: Py, endpoint: Py): (r: Result<Config, Error>)
    ensures endpoint == PNone && r.Success? ==> r.value.host == host && IntOf(port) == Success(r.value.port)
    ensures endpoint == PNone && r.Failure? ==> IntOf(port) == Failure(r.error)
    ensures endpoint != PNone && !endpoint.PStr? ==> r == Failure(AttributeError)
    ensures endpoint.PStr? && Count(endpoint.s, ':') != 1 ==> r == Failure(ValueError)
    ensures endpoint.PStr? && r.Success? ==>
      var h := r.value.host;
      h.PStr? && ':' !in h.s && |h.s| < |endpoint.s| &&
      endpoint.s == h.s + ":" + endpoint.s[|h.s| + 1..] &&
      IntOf(PStr(endpoint.s[|h.s| + 1..])) == Success(r.value.port)
  {
    match endpoint
    case PNone =>
      (match IntOf(port)
       case Success(n) => Success(Config(host, n))
       case Failure(e) => Failure(e))
    case PStr(e) =>
      var parts := Split(e, ':');
      if |parts| != 2 then Failure(ValueError)
      else
        assert e == parts[0] + [':'] + parts[1] by {
          assert Join(parts[1..], ':') == parts[1];
        }
        assert e[|parts[0]| + 1..] == parts[1];
        (match IntOf(PStr(parts[1]))
         case Success(n) => Success(Config(PStr(parts[0]), n))
         case Failure(err) => Failure(err))
    case _ => Failure(AttributeError)
  }

  /** When an endpoint is given, the `host` and `port` arguments play no part. */
  lemma EndpointOverridesArguments(host: Py, port: Py, otherHost: Py, otherPort: Py, endpoint: Py)
    requires endpoint != PNone
    ensures ParseConfig(host, port, endpoint) == ParseConfig(otherHost, otherPort, endpoint)
  {
  }

  /**
   * Constructing with `endpoint="h:p"` gives exactly what constructing with
   * `host="h", port="p"` gives, errors included.
   */
  lemma EndpointMatchesHostPort(host: Py, port: Py, h: string, p: string)
    requires ':' !in h && ':' !in p
    ensures ParseConfig(host, port, PStr(h + ":" + p)) == ParseConfig(PStr(h), PStr(p), PNone)
  {
    SplitAt(h, p, ':');
  }

  /** An endpoint written from a host and a port number reads back as that host and port. */
  lemma EndpointRoundTrip(host: Py, port: Py, h: string, n: nat)
    requires ':' !in h
    ensures ParseConfig(host, port, PStr(h + ":" + Decimal(n))) == Success(Config(PStr(h), n))
    ensures ParseConfig(host, port, PStr(h + ":" + Decimal(n))) == ParseConfig(PStr(h), PInt(n), PNone)
  {
    var p := Decimal(n);
    assert ':' !in p by {
      forall k | 0 <= k < |p| ensures p[k] != ':' {
        assert IsDigit(p[k]);
      }
    }
    EndpointMatchesHostPort(host, port, h, p);
    DecimalRoundTrip(n);
  }
}
