/** What the Slack client makes of one HTTP exchange: the response body on
    status 200, otherwise an error whose text is the status line, the status
    code in decimal and the body. The request and the transport are not
    modelled; their outcome is the Exchange handed in. */
module Delivery {
  import opened Wrappers

  /** resp.Status, resp.StatusCode and the body read from the response. */
  datatype Response = Response(status: string, statusCode: int, body: string)

  /** How one request went, as far as the client can tell.
      NoResponse: the request could not be built or the transport returned no
      response; the client reaches `req.Header` or `resp.Body` on a nil pointer
      before it looks at the error, so the post panics.
      Errored: a response came back but with an error, or its body could not
      be read; the client returns that error.
      Got: a response whose body was read. */
  datatype Exchange =
    | NoResponse(cause: string)
    | Errored(err: string)
    | Got(response: Response)

  /** The result of one post: the response body, a returned error, or a
      panic. */
  datatype Posted = Posted(body: string) | PostFailed(error: string) | PostPanicked

  function DigitChar(d: nat): (c: char)
    requires d < 10
    ensures '0' <= c <= '9'
  {
    "0123456789"[d]
  }

  function DigitValue(c: char): (d: nat)
    requires '0' <= c <= '9'
    ensures d < 10 && DigitChar(d) == c
  {
    c as int - '0' as int
  }

  /** The decimal digits of `n`, most significant first, without leading
      zeros. */
  function Decimal(n: nat): (s: string)
    ensures |s| >= 1 && '0' <= s[0] <= '9' && '0' <= s[|s| - 1] <= '9'
    ensures |s| > 1 ==> s[0] != '0'
  {
    if n < 10 then [DigitChar(n)] else Decimal(n / 10) + [DigitChar(n % 10)]
  }

  /** %d: a minus sign before the digits of a negative number. */
  function IntText(i: int): string {
    if i < 0 then "-" + Decimal(-i) else Decimal(i)
  }

  /** Reads a non-empty run of decimal digits. */
  function ParseDecimal(s: string): Option<nat>
  {
    if |s| == 0 || !('0' <= s[|s| - 1] <= '9') then None
    else if |s| == 1 then Some(DigitValue(s[0]))
    else
      match ParseDecimal(s[..|s| - 1])
      case None => None
      case Some(m) => Some(m * 10 + DigitValue(s[|s| - 1]))
  }

  /** Reads what %d writes. */
  function ParseInt(s: string): Option<int> {
    if |s| > 0 && s[0] == '-' then
      match ParseDecimal(s[1..])
      case None => None
      case Some(n) => Some(-(n as int))
    else
      match ParseDecimal(s)
      case None => None
      case Some(n) => Some(n)
  }

  /** The digits of a number read back as that number. */
  lemma {:induction false} DecimalRoundTrip(n: nat)
    ensures ParseDecimal(Decimal(n)) == Some(n)
    decreases n
  {
    if n >= 10 {
      var s, t := Decimal(n), Decimal(n / 10);
      assert s == t + [DigitChar(n % 10)];
      DecimalRoundTrip(n / 10);
      assert s[..|s| - 1] == t;
      assert DigitValue(s[|s| - 1]) == n % 10;
    }
  }

  /** The status code in an error text reads back as the status code. */
  lemma IntTextRoundTrip(i: int)
    ensures ParseInt(IntText(i)) == Some(i)
  {
    var s := IntText(i);
    if i < 0 {
      DecimalRoundTrip(-i);
      assert s[0] == '-' && s[1..] == Decimal(-i);
    } else {
      DecimalRoundTrip(i);
      assert '0' <= s[0] <= '9';
    }
  }

  /** The error text of a response that is not a 200. */
  function ErrorText(r: Response): string {
    "Status: " + r.status + ", StatusCode " + IntText(r.statusCode) + ", Body: " + r.body
  }

  /** The result of a post that got a response. */
  function PostResult(r: Response): (res: Result<string, string>)
    ensures res.Success? <==> r.statusCode == 200
    ensures res.Success? ==> res.value == r.body
    ensures res.Failure? ==> res.error == ErrorText(r)
  {
    if r.statusCode != 200 then Failure(ErrorText(r)) else Success(r.body)
  }

  /** The result of a post: a panic when there is no response, an error of
      the exchange as it is, otherwise the result of the response. */
  function Post(exchange: Exchange): (p: Posted)
    ensures p.PostPanicked? <==> exchange.NoResponse?
    ensures exchange.Errored? ==> p == PostFailed(exchange.err)
    ensures exchange.Got? ==> (p.Posted? <==> exchange.response.statusCode == 200)
    ensures exchange.Got? && p.Posted? ==> p.body == exchange.response.body
    ensures exchange.Got? && p.PostFailed? ==> p.error == ErrorText(exchange.response)
  {
    match exchange
    case NoResponse(_) => PostPanicked
    case Errored(e) => PostFailed(e)
    case Got(r) =>
      match PostResult(r)
      case Success(body) => Posted(body)
      case Failure(e) => PostFailed(e)
  }

  /** Two failed responses with the same status line and body but different
      codes give different error texts. */
  lemma ErrorTextShowsCode(r: Response, code: int)
    requires code != r.statusCode
    ensures ErrorText(r) != ErrorText(r.(statusCode := code))
  {
    var p := "Status: " + r.status + ", StatusCode ";
    var a, b := ErrorText(r), ErrorText(r.(statusCode := code));
    if a == b {
      assert a == p + (IntText(r.statusCode) + ", Body: " + r.body);
      assert b == p + (IntText(code) + ", Body: " + r.body);
      var sa, sb := IntText(r.statusCode) + ", Body: " + r.body, IntText(code) + ", Body: " + r.body;
      assert sa == a[|p|..] == sb;
      assert IntText(r.statusCode) == sa[..|sa| - |", Body: " + r.body|];
      assert IntText(code) == sb[..|sb| - |", Body: " + r.body|];
      IntTextRoundTrip(r.statusCode);
      IntTextRoundTrip(code);
    }
  }
}
