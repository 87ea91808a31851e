/** Curried multiplication with two partial applications, and an API client
    whose base URL is fixed first and whose endpoint comes later. */
module Currying {

  /** `multiply = (a) => (b) => a * b`: the scaling that sends 1 to `a`. */
  function Multiply(a: real): (times: real -> real)
    ensures times(1.0) == a && times(0.0) == 0.0
    ensures forall b, c :: c * times(b) == b * times(c)
  {
    b => a * b
  }

  /** `multiply(a)` distributes over addition. */
  lemma MultiplyAdditive(a: real, b: real, c: real)
    ensures Multiply(a)(b + c) == Multiply(a)(b) + Multiply(a)(c)
  {
  }

  /** Sending 1 to `a` and commuting with scaling pin `multiply(a)` down:
      any function with both properties is `multiply(a)`. */
  lemma ScalingIsMultiply(a: real, g: real -> real)
    requires g(1.0) == a
    requires forall b, c :: c * g(b) == b * g(c)
    ensures forall b :: g(b) == Multiply(a)(b)
  {
    forall b
      ensures g(b) == Multiply(a)(b)
    {
      assert b * g(1.0) == 1.0 * g(b);
    }
  }

  /** `double = multiply(2)` */
  function Double(x: real): (r: real)
    ensures r == 2.0 * x
  {
    Multiply(2.0)(x)
  }

  /** `triple = multiply(3)` */
  function Triple(x: real): (r: real)
    ensures r == 3.0 * x
  {
    Multiply(3.0)(x)
  }

  lemma DoubleAndTripleOfFive()
    ensures Double(5.0) == 10.0 && Triple(5.0) == 15.0
    ensures Double(2.5) == 5.0
  {
  }

  /** `createApiClient(baseUrl)`: the returned client, given an endpoint,
      requests the URL `${baseUrl}${endpoint}`. Only the URL handed to
      `fetch` is modelled. The URL begins with the base URL and the rest of
      it is the endpoint. */
  function CreateApiClient(baseUrl: string): (client: string -> string)
    ensures forall endpoint :: |client(endpoint)| == |baseUrl| + |endpoint|
    ensures forall endpoint :: client(endpoint)[..|baseUrl|] == baseUrl
    ensures forall endpoint :: client(endpoint)[|baseUrl|..] == endpoint
  {
    endpoint => baseUrl + endpoint
  }

  /** One client never requests the same URL for two different endpoints,
      and two clients whose base URLs differ in length never request the
      same URL for one endpoint. */
  lemma ClientUrlsDistinct(baseUrl: string, other: string, endpoint: string, endpoint': string)
    ensures endpoint != endpoint' ==> CreateApiClient(baseUrl)(endpoint) != CreateApiClient(baseUrl)(endpoint')
    ensures |baseUrl| != |other| ==> CreateApiClient(baseUrl)(endpoint) != CreateApiClient(other)(endpoint)
  {
  }

  lemma ApiClientExample()
    ensures CreateApiClient("https://api.example.com")("/users") == "https://api.example.com/users"
  {
  }
}
