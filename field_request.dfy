/**
 * How NetField.Do fills in an HttpWebRequest from the task: the default
 * Referer and the form body, each with the properties that pin it down.
 */
module FieldRequest {
  import opened Wrappers
  import opened Transport
  import opened NetTasks

  predicate StartsWith(s: string, prefix: string) {
    |prefix| <= |s| && s[..|prefix|] == prefix
  }

  /** `s.Split(c)[0]`: the text before the first `c`, or all of `s` when there is none. */
  function BeforeFirst(s: string, c: char): (r: string)
    ensures |r| <= |s| && r == s[..|r|]
    ensures c !in r
    ensures |r| < |s| ==> s[|r|] == c
    decreases |s|
  {
    if s == [] then []
    else if s[0] == c then []
    else [s[0]] + BeforeFirst(s[1..], c)
  }

  /** The prefix up to a separator that does not occur in it is exactly that prefix. */
  lemma {:induction false} BeforeFirstOfJoined(a: string, c: char, b: string)
    requires c !in a
    ensures BeforeFirst(a + [c] + b, c) == a
    decreases |a|
  {
    if a == [] {
      assert (a + [c] + b)[0] == c;
    } else {
      assert (a + [c] + b)[1..] == a[1..] + [c] + b;
      BeforeFirstOfJoined(a[1..], c, b);
      assert [a[0]] + a[1..] == a;
    }
  }

  /**
   * The Referer used when the task sets none: "https://" and the host for an
   * https URL, otherwise the text before the first ':' followed by "//" and
   * the host (so the colon is dropped).
   */
  function DefaultReferer(url: string, host: string): (r: string)
    ensures |r| >= |host| + 2 && r[|r| - |host|..] == host && r[|r| - |host| - 2..|r| - |host|] == "//"
  {
    var scheme := if StartsWith(url, "https://") then "https://" else BeforeFirst(url, ':') + "//";
    assert scheme[|scheme| - 2..] == "//";
    scheme + host
  }

  lemma RefererOfHttps(url: string, host: string)
    requires StartsWith(url, "https://")
    ensures DefaultReferer(url, host) == "https://" + host
  {
  }

  /** For an http URL the default Referer is "http//" and the host, with no colon. */
  lemma RefererOfHttp(url: string, host: string)
    requires StartsWith(url, "http://")
    ensures DefaultReferer(url, host) == "http//" + host
  {
    assert url == "http" + [':'] + url[5..];
    BeforeFirstOfJoined("http", ':', url[5..]);
    assert !StartsWith(url, "https://") by {
      assert url[4] == ':';
    }
  }

  /** Any other scheme keeps the text up to its first colon, drops the colon, and adds "//" and the host. */
  lemma RefererOfOtherScheme(url: string, host: string)
    requires !StartsWith(url, "https://")
    ensures exists p :: DefaultReferer(url, host) == p + "//" + host && ':' !in p
                        && StartsWith(url, p) && (p == url || url[|p|] == ':')
  {
    var p := BeforeFirst(url, ':');
    assert DefaultReferer(url, host) == p + "//" + host;
  }

  /** Without a `c` the whole string comes back. */
  lemma {:induction false} BeforeFirstAbsent(s: string, c: char)
    requires c !in s
    ensures BeforeFirst(s, c) == s
    decreases |s|
  {
    if s != [] {
      assert c !in s[1..];
      BeforeFirstAbsent(s[1..], c);
      assert [s[0]] + s[1..] == s;
    }
  }

  /** string.Join(sep, items). */
  function Join(items: seq<string>, sep: string): string
    decreases |items|
  {
    if |items| == 0 then ""
    else if |items| == 1 then items[0]
    else items[0] + sep + Join(items[1..], sep)
  }

  /** `s.Split(c)`: the pieces between the occurrences of `c`. */
  function Split(s: string, c: char): (r: seq<string>)
    ensures |r| >= 1
    decreases |s|
  {
    var head := BeforeFirst(s, c);
    if |head| == |s| then [s] else [head] + Split(s[|head| + 1..], c)
  }

  /** Splitting a join on a separator that no item contains gives the items back. */
  lemma {:induction false} SplitJoin(items: seq<string>, c: char)
    requires |items| >= 1
    requires forall i :: 0 <= i < |items| ==> c !in items[i]
    ensures Split(Join(items, [c]), c) == items
    decreases |items|
  {
    if |items| == 1 {
      BeforeFirstAbsent(items[0], c);
    } else {
      var rest := Join(items[1..], [c]);
      assert Join(items, [c]) == items[0] + [c] + rest;
      BeforeFirstOfJoined(items[0], c, rest);
      assert (items[0] + [c] + rest)[|items[0]| + 1..] == rest;
      SplitJoin(items[1..], c);
      assert [items[0]] + items[1..] == items;
    }
  }

  /** One form field, "key=value", with no percent-encoding. */
  function FormField(kv: (string, string)): string {
    kv.0 + "=" + kv.1
  }

  /** The POST body built from the query entries: "k1=v1&k2=v2…" in enumeration order. */
  function FormBody(query: seq<(string, string)>): string {
    Join(seq(|query|, i requires 0 <= i < |query| => FormField(query[i])), "&")
  }

  /** Reads one "key=value" field back. */
  function ParseField(s: string): (string, string) {
    var k := BeforeFirst(s, '=');
    (k, if |k| < |s| then s[|k| + 1..] else "")
  }

  /** Reads a form body back into its entries. */
  function ParseForm(s: string): seq<(string, string)> {
    if s == "" then []
    else
      var fields := Split(s, '&');
      seq(|fields|, i requires 0 <= i < |fields| => ParseField(fields[i]))
  }

  /** Keys free of '=' and '&' and values free of '&' survive the form body unchanged. */
  lemma FormBodyRoundTrip(query: seq<(string, string)>)
    requires forall i :: 0 <= i < |query| ==> '=' !in query[i].0 && '&' !in query[i].0 && '&' !in query[i].1
    ensures ParseForm(FormBody(query)) == query
  {
    var fields := seq(|query|, i requires 0 <= i < |query| => FormField(query[i]));
    if |query| > 0 {
      forall i | 0 <= i < |query| ensures '&' !in fields[i] && ParseField(fields[i]) == query[i] {
        assert fields[i] == query[i].0 + ['='] + query[i].1;
        BeforeFirstOfJoined(query[i].0, '=', query[i].1);
      }
      SplitJoin(fields, '&');
      assert FormBody(query) != "" by {
        assert |fields[0]| > 0;
        if |query| > 1 {
          assert FormBody(query) == fields[0] + "&" + Join(fields[1..], "&");
        }
      }
    }
  }

  /** Because nothing is encoded, an '&' inside a value reads as a field separator. */
  lemma FormBodyIsNotEncoded()
    ensures FormBody([("a", "1&b=2")]) == FormBody([("a", "1"), ("b", "2")]) == "a=1&b=2"
  {
    var one := seq(1, i requires 0 <= i < 1 => FormField([("a", "1&b=2")][i]));
    assert one[0] == "a=1&b=2";
    assert one == ["a=1&b=2"];
    var two := seq(2, i requires 0 <= i < 2 => FormField([("a", "1"), ("b", "2")][i]));
    assert two[0] == "a=1" && two[1] == "b=2";
    assert two == ["a=1", "b=2"];
    assert Join(two, "&") == "a=1" + "&" + Join(["b=2"], "&");
  }

  /**
   * The request built for the task's current URL (lines 49-88): a POST with
   * a form body when a query is present, otherwise a GET that still carries
   * the raw body, if any.
   */
  function BuildRequest(t: NetTask, host: string): (r: HttpRequest)
    ensures r.url == t.url && r.allowAutoRedirect == t.autoRedirection
    ensures r.verb == (if t.query.Some? then "POST" else "GET")
    ensures t.query.Some? ==> r.body == Some(FormBody(t.query.value))
    ensures t.query.None? ==> r.body == t.requestBody
    ensures t.referer.Some? ==> r.referer == t.referer.value
    ensures t.referer.None? ==> r.referer == DefaultReferer(t.url, host)
    ensures r.timeout == (if t.timeoutInfinite then InfiniteTimeout else t.timeoutMillisecond)
  {
    HttpRequest(
      url := t.url,
      verb := if t.query.Some? then "POST" else "GET",
      contentType := if t.query.Some? then Some("application/x-www-form-urlencoded") else None,
      accept := t.accept,
      userAgent := t.userAgent,
      referer := if t.referer.Some? then t.referer.value else DefaultReferer(t.url, host),
      headers := (if t.cookie.Some? then [("Cookie", t.cookie.value)] else [])
                 + (if t.headers.Some? then t.headers.value else []),
      proxy := t.proxy,
      timeout := if t.timeoutInfinite then InfiniteTimeout else t.timeoutMillisecond,
      allowAutoRedirect := t.autoRedirection,
      body := if t.query.Some? then Some(FormBody(t.query.value)) else t.requestBody)
  }

  /**
   * A task with a query sends a form POST whose body reads back into the
   * query's entries, in order, as long as keys hold neither '=' nor '&' and
   * values hold no '&'.
   */
  lemma BuildRequestSendsQuery(t: NetTask, host: string)
    requires t.query.Some?
    requires forall i :: 0 <= i < |t.query.value| ==>
      '=' !in t.query.value[i].0 && '&' !in t.query.value[i].0 && '&' !in t.query.value[i].1
    ensures var r := BuildRequest(t, host);
      r.verb == "POST" && r.contentType == Some("application/x-www-form-urlencoded")
      && r.body.Some? && ParseForm(r.body.value) == t.query.value
  {
    FormBodyRoundTrip(t.query.value);
  }

  /**
   * The Referer sent: the task's own when it has one; otherwise "https://"
   * and the host for an https URL, and "http//" and the host for an http URL.
   */
  lemma BuildRequestReferer(t: NetTask, host: string)
    ensures var r := BuildRequest(t, host);
      (t.referer.Some? ==> r.referer == t.referer.value)
      && (t.referer.None? && StartsWith(t.url, "https://") ==> r.referer == "https://" + host)
      && (t.referer.None? && StartsWith(t.url, "http://") ==> r.referer == "http//" + host)
  {
    if t.referer.None? && StartsWith(t.url, "http://") {
      RefererOfHttp(t.url, host);
    }
  }
}
