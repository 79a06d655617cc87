/** How the client composes the address of an API endpoint. */
module Urls {

  /** The API version segment every endpoint sits under. */
  const ApiVersion: string := "api/v1"

  predicate IsDigit(c: char) { '0' <= c <= '9' }

  predicate AllDigits(s: string) { forall i :: 0 <= i < |s| ==> IsDigit(s[i]) }

  /** Decimal text of a natural number, as Python's `%s` writes it. */
  function NatText(n: nat): (r: string)
    ensures |r| > 0 && AllDigits(r)
    decreases n
  {
    var last := [(('0' as int) + n % 10) as char];
    if n < 10 then last else NatText(n / 10) + last
  }

  /** Decimal text of an integer: a minus sign in front of a negative one. */
  function IntText(n: int): string {
    if n < 0 then "-" + NatText(-n) else NatText(n)
  }

  /** Reads a string of decimal digits back as a number. */
  function ParseNat(s: string): nat
    requires AllDigits(s)
    decreases |s|
  {
    if s == [] then 0 else 10 * ParseNat(s[..|s| - 1]) + (s[|s| - 1] as int - '0' as int)
  }

  /** Decimal digits, with an optional leading minus sign. */
  predicate IntegerText(s: string) {
    s != [] && (if s[0] == '-' then AllDigits(s[1..]) else AllDigits(s))
  }

  /** Decimal text as `%s` writes an integer: no leading zero except in "0"
      itself, and no "-0". */
  predicate Canonical(s: string) {
    && IntegerText(s)
    && (if s[0] == '-' then |s| > 1 && s[1] != '0' else s == "0" || s[0] != '0')
  }

  /** Reads decimal text, with an optional leading minus sign, back as a number. */
  function ParseInt(s: string): int
    requires IntegerText(s)
  {
    if s[0] == '-' then -(ParseNat(s[1..]) as int) else ParseNat(s)
  }

  /** Decimal text determines the number it was written for. */
  lemma {:induction false} ParseNatText(n: nat)
    ensures ParseNat(NatText(n)) == n
    decreases n
  {
    var s := NatText(n);
    if n >= 10 {
      ParseNatText(n / 10);
      assert s[..|s| - 1] == NatText(n / 10);
    }
  }

  /** The text of a positive number starts with a digit other than zero. */
  lemma {:induction false} NatTextLeadingDigit(n: nat)
    requires n >= 1
    ensures NatText(n)[0] != '0'
    decreases n
  {
    if n >= 10 {
      NatTextLeadingDigit(n / 10);
      assert NatText(n)[0] == NatText(n / 10)[0];
    }
  }

  /** The text written for any integer has no leading zero and no "-0". */
  lemma IntTextCanonical(n: int)
    ensures Canonical(IntText(n))
  {
    ParseIntText(n);
    if n < 0 {
      NatTextLeadingDigit(-n);
      assert IntText(n)[1] == NatText(-n)[0];
    } else if n >= 1 {
      NatTextLeadingDigit(n);
    }
  }

  lemma ParseIntText(n: int)
    ensures IntegerText(IntText(n)) && ParseInt(IntText(n)) == n
  {
    if n < 0 {
      ParseNatText(-n);
      assert IntText(n)[1..] == NatText(-n);
    } else {
      ParseNatText(n);
    }
  }

  /** The scheme the TLS flag selects. */
  function Scheme(https: bool): string {
    if https then "https" else "http"
  }

  /** `ports[https]`: the flag is used as an index into the (HTTP, HTTPS) pair. */
  function SelectedPort(https: bool, ports: (int, int)): (p: int)
    ensures p == if https then ports.1 else ports.0
  {
    [ports.0, ports.1][if https then 1 else 0]
  }

  /** The address a request to `apiUrl` is posted to:
      `scheme://host:port/api/v1/apiUrl`. */
  function Url(host: string, https: bool, ports: (int, int), apiUrl: string): string {
    Scheme(https) + "://" + host + ":" + IntText(SelectedPort(https, ports)) + "/" + ApiVersion + "/" + apiUrl
  }

  /** The address starts with `https://` exactly when TLS is on (with `http://`
      otherwise), then carries the host followed by a colon, and ends with
      `/api/v1/` and the endpoint path. */
  lemma UrlShape(host: string, https: bool, ports: (int, int), apiUrl: string)
    ensures var r := Url(host, https, ports, apiUrl);
      && |r| > |Scheme(https)| + 3 + |host| + |"/" + ApiVersion + "/" + apiUrl|
      && (https <==> r[..8] == "https://")
      && (!https ==> r[..7] == "http://")
      && r[|Scheme(https)| + 3..|Scheme(https)| + 3 + |host|] == host
      && r[|Scheme(https)| + 3 + |host|] == ':'
      && r[|r| - |"/" + ApiVersion + "/" + apiUrl|..] == "/" + ApiVersion + "/" + apiUrl
  {
    var head := Scheme(https) + "://" + host + ":";
    var tail := "/" + ApiVersion + "/" + apiUrl;
    var r := Url(host, https, ports, apiUrl);
    assert r == head + IntText(SelectedPort(https, ports)) + tail;
    assert r[..|head|] == head;
    assert head[|Scheme(https)| + 3..|head| - 1] == host;
    assert r[..8] == head[..8];
    assert head[4] == if https then 's' else ':';
    assert r[|r| - |tail|..] == tail;
  }

  /** Between `host:` and `/api/v1/apiUrl` the address carries the decimal text
      of the port the TLS flag selects: `ports.1` with TLS, `ports.0` without. */
  lemma UrlCarriesPort(host: string, https: bool, ports: (int, int), apiUrl: string)
    ensures var r := Url(host, https, ports, apiUrl);
      var start := |Scheme(https)| + 3 + |host| + 1;
      var tail := "/" + ApiVersion + "/" + apiUrl;
      && start <= |r| - |tail|
      && var text := r[start..|r| - |tail|];
      && IntegerText(text) && Canonical(text)
      && ParseInt(text) == (if https then ports.1 else ports.0)
  {
    var port := SelectedPort(https, ports);
    var r := Url(host, https, ports, apiUrl);
    var start := |Scheme(https)| + 3 + |host| + 1;
    var tail := "/" + ApiVersion + "/" + apiUrl;
    assert r == (Scheme(https) + "://" + host + ":") + IntText(port) + tail;
    assert r[start..|r| - |tail|] == IntText(port);
    ParseIntText(port);
    IntTextCanonical(port);
  }

  /** With the default configuration a request to `points` goes to
      `http://localhost:80/api/v1/points`. */
  lemma DefaultUrl()
    ensures Url("localhost", false, (80, 443), "points") == "http://localhost:80/api/v1/points"
  {
    assert NatText(8) == "8";
    assert NatText(80) == "80";
    assert Scheme(false) + "://" + "localhost" + ":" == "http://localhost:";
    assert "/" + ApiVersion + "/" + "points" == "/api/v1/points";
  }
}
