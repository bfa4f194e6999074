/**
 * The listing query: the link template each module's `build_query_link`
 * produces, Python's `str()` of the option values it embeds, and the
 * `link.format(start_number=n)` step that turns the template into the URL
 * of one page.
 */
module Query {
  import opened Wrappers
  import opened Json

  const QueryTemplate: string := "?limit=10&start_number={start_number}"

  /** The URL of a listing without its start number: a path and the filters to append. */
  datatype Link = Link(path: string, filters: seq<(string, Value)>)

  function DigitChar(d: nat): (c: char)
    requires d < 10
    ensures '0' <= c <= '9'
  {
    "0123456789"[d]
  }

  /** Decimal digits of a natural number, most significant first, as `str(n)`. */
  function NatToString(n: nat): (s: string)
    ensures |s| > 0
    ensures forall i :: 0 <= i < |s| ==> '0' <= s[i] <= '9'
    decreases n
  {
    if n < 10 then [DigitChar(n)] else NatToString(n / 10) + [DigitChar(n % 10)]
  }

  /** `str(i)` for a Python int. */
  function IntToString(i: int): (s: string)
    ensures |s| > 0
    ensures forall k :: 0 <= k < |s| ==> s[k] == '-' || '0' <= s[k] <= '9'
    ensures (s[0] == '-') <==> i < 0
  {
    if i < 0 then "-" + NatToString(-i) else NatToString(i)
  }

  /** `str(v)` for a scalar value. */
  function PyStr(v: Value): string
    requires IsScalar(v)
  {
    match v
    case Null => "None"
    case Str(s) => s
    case Int(i) => IntToString(i)
    case Bool(b) => if b then "True" else "False"
  }

  /** `str.lower()` restricted to ASCII letters. */
  function Lower(s: string): (r: string)
    ensures |r| == |s|
    ensures forall i :: 0 <= i < |s| ==> r[i] == (if 'A' <= s[i] <= 'Z' then (s[i] as int + 32) as char else s[i])
  {
    if s == [] then []
    else [if 'A' <= s[0] <= 'Z' then (s[0] as int + 32) as char else s[0]] + Lower(s[1..])
  }

  /** The test `v or v in [False, 0]` guarding every filter of a query link. */
  predicate Included(v: Value) {
    Truthy(v) || v == Bool(false) || v == Int(0)
  }

  /** `str(v) if v else str(v).lower()`. */
  function Render(v: Value): string
    requires IsScalar(v)
  {
    if Truthy(v) then PyStr(v) else Lower(PyStr(v))
  }

  predicate ScalarFilters(filters: seq<(string, Value)>) {
    forall i :: 0 <= i < |filters| ==> IsScalar(filters[i].1)
  }

  /** Two filters are plain values exactly when both values are. */
  lemma TwoScalarFilters(n1: string, v1: Value, n2: string, v2: Value)
    ensures ScalarFilters([(n1, v1), (n2, v2)]) <==> IsScalar(v1) && IsScalar(v2)
  {
    var fs := [(n1, v1), (n2, v2)];
    assert fs[0].1 == v1 && fs[1].1 == v2;
  }

  /** The `query_params` list: one `name=value` term per included filter, in order. */
  function Terms(filters: seq<(string, Value)>): (ts: seq<string>)
    requires ScalarFilters(filters)
    ensures |ts| <= |filters|
    decreases |filters|
  {
    if filters == [] then []
    else
      var (name, v) := filters[0];
      (if Included(v) then [name + "=" + Render(v)] else []) + Terms(filters[1..])
  }

  /** `sep.join(ts)`. */
  function Join(sep: string, ts: seq<string>): string
    decreases |ts|
  {
    if ts == [] then "" else if |ts| == 1 then ts[0] else ts[0] + sep + Join(sep, ts[1..])
  }

  /** `build_query_link`: the fixed template, then `&` and the joined terms if there are any. */
  function BuildQueryLink(filters: seq<(string, Value)>): string
    requires ScalarFilters(filters)
  {
    var ts := Terms(filters);
    QueryTemplate + (if ts != [] then "&" + Join("&", ts) else "")
  }

  /** Reference reading of the link tail: `&name=value` for each included filter, in order. */
  function Suffix(filters: seq<(string, Value)>): string
    requires ScalarFilters(filters)
    decreases |filters|
  {
    if filters == [] then ""
    else
      Term(filters[0].0, filters[0].1) + Suffix(filters[1..])
  }

  /** `&` in front of each term, concatenated. */
  function AmpConcat(ts: seq<string>): string
    decreases |ts|
  {
    if ts == [] then "" else "&" + ts[0] + AmpConcat(ts[1..])
  }

  lemma {:induction false} AmpJoin(ts: seq<string>)
    ensures (if ts != [] then "&" + Join("&", ts) else "") == AmpConcat(ts)
    decreases |ts|
  {
    if |ts| == 1 {
      assert AmpConcat(ts[1..]) == "";
    } else if |ts| > 1 {
      AmpJoin(ts[1..]);
      assert "&" + Join("&", ts) == "&" + ts[0] + ("&" + Join("&", ts[1..]));
    }
  }

  lemma {:induction false} TermsAreSuffix(filters: seq<(string, Value)>)
    requires ScalarFilters(filters)
    ensures AmpConcat(Terms(filters)) == Suffix(filters)
    decreases |filters|
  {
    if filters != [] {
      TermsAreSuffix(filters[1..]);
      var (name, v) := filters[0];
      var rest := Terms(filters[1..]);
      assert Suffix(filters) == Term(name, v) + Suffix(filters[1..]);
      if Included(v) {
        var t := name + "=" + Render(v);
        assert Terms(filters) == [t] + rest;
        assert ([t] + rest)[1..] == rest;
        assert AmpConcat([t] + rest) == "&" + t + AmpConcat(rest);
        AmpTerm(name, Render(v));
      } else {
        assert Terms(filters) == rest;
      }
    }
  }

  /** A term with its `&` in front is the text `Term` adds. */
  lemma AmpTerm(name: string, r: string)
    ensures "&" + (name + "=" + r) == "&" + name + "=" + r
  {
  }

  /**
   * The query link always begins with the fixed `limit=10` template and
   * then lists `&name=value` for exactly the included filters, in order.
   */
  lemma QueryLinkShape(filters: seq<(string, Value)>)
    requires ScalarFilters(filters)
    ensures BuildQueryLink(filters) == QueryTemplate + Suffix(filters)
  {
    AmpJoin(Terms(filters));
    TermsAreSuffix(filters);
  }

  /** What one filter adds to the link: `&name=value` when it is included, nothing otherwise. */
  function Term(name: string, v: Value): string
    requires IsScalar(v)
  {
    if Included(v) then "&" + name + "=" + Render(v) else ""
  }

  /** A query link over two filters, spelled out: the template, then each included filter in order. */
  lemma TwoFilterLink(n1: string, v1: Value, n2: string, v2: Value)
    requires IsScalar(v1) && IsScalar(v2)
    ensures var fs := [(n1, v1), (n2, v2)];
            ScalarFilters(fs) && BuildQueryLink(fs) == QueryTemplate + Term(n1, v1) + Term(n2, v2)
  {
    var fs := [(n1, v1), (n2, v2)];
    QueryLinkShape(fs);
    assert fs[1..] == [(n2, v2)];
    assert Suffix([(n2, v2)]) == Term(n2, v2) + Suffix([]);
    assert Suffix(fs) == Term(n1, v1) + (Term(n2, v2) + "");
    Regroup(QueryTemplate, Term(n1, v1), Term(n2, v2));
  }

  lemma Regroup(q: string, t1: string, t2: string)
    ensures q + (t1 + (t2 + "")) == q + t1 + t2
  {
  }

  /** A page link over two filters, spelled out: the path, the template, then each included filter in order. */
  lemma TwoFilterPage(path: string, n1: string, v1: Value, n2: string, v2: Value)
    requires IsScalar(v1) && IsScalar(v2)
    ensures var l := Link(path, [(n1, v1), (n2, v2)]);
            ScalarFilters(l.filters) && PageTemplate(l) == path + QueryTemplate + Term(n1, v1) + Term(n2, v2)
  {
    TwoFilterLink(n1, v1, n2, v2);
    RegroupPath(path, QueryTemplate, Term(n1, v1), Term(n2, v2));
  }

  lemma RegroupPath(path: string, q: string, t1: string, t2: string)
    ensures path + (q + t1 + t2) == path + q + t1 + t2
  {
  }

  /** A filter set to False is written lower-case; one set to 0 or True is written as Python prints it. */
  lemma RenderFalsyFilters()
    ensures Render(Bool(false)) == "false"
    ensures Render(Int(0)) == "0"
    ensures Render(Bool(true)) == "True"
    ensures !Included(Null) && !Included(Str(""))
  {
    assert Lower("False") == "false";
  }

  // ----- str.format with the single keyword start_number --------------------

  /** `t.find(c, from)`, as an Option. */
  function Find(t: string, c: char, from: nat): (r: Option<nat>)
    ensures r.Some? ==> from <= r.value < |t| && t[r.value] == c
    ensures r.Some? ==> forall i :: from <= i < r.value ==> t[i] != c
    ensures r.None? ==> forall i :: from <= i < |t| ==> t[i] != c
    decreases |t| - from
  {
    if from >= |t| then None else if t[from] == c then Some(from) else Find(t, c, from + 1)
  }

  function Prepend(s: string, r: Result<string, string>): (q: Result<string, string>)
    ensures r.Success? ==> q == Success(s + r.value)
    ensures r.Failure? ==> q == r
  {
    if r.Success? then Success(s + r.value) else r
  }

  /**
   * `t.format(start_number=n)`: `{{` and `}}` stand for single braces, the
   * field `{start_number}` for the decimal digits of `n`; any other field,
   * and any unpaired brace, raises (carried as the offending text).
   */
  function Format(t: string, n: int): Result<string, string>
    decreases |t|
  {
    if t == [] then Success("")
    else if t[0] == '{' then
      if |t| > 1 && t[1] == '{' then Prepend("{", Format(t[2..], n))
      else
        match Find(t, '}', 1)
        case None => Failure(t)
        case Some(close) =>
          if t[1..close] == "start_number" then Prepend(IntToString(n), Format(t[close + 1..], n))
          else Failure(t[..close + 1])
    else if t[0] == '}' then
      if |t| > 1 && t[1] == '}' then Prepend("}", Format(t[2..], n)) else Failure(t)
    else Prepend([t[0]], Format(t[1..], n))
  }

  predicate BraceFree(s: string) {
    forall i :: 0 <= i < |s| ==> s[i] != '{' && s[i] != '}'
  }

  /** Text without braces is copied unchanged in front of whatever follows. */
  lemma {:induction false} FormatBraceFreePrefix(a: string, b: string, n: int)
    requires BraceFree(a)
    ensures Format(a + b, n) == Prepend(a, Format(b, n))
    decreases |a|
  {
    if a == [] {
      assert a + b == b;
      assert Prepend(a, Format(b, n)) == Format(b, n) by {
        if Format(b, n).Success? {
          assert a + Format(b, n).value == Format(b, n).value;
        }
      }
    } else {
      var t := a + b;
      assert t[0] == a[0] && t[0] != '{' && t[0] != '}';
      assert t[1..] == a[1..] + b;
      assert Format(t, n) == Prepend([a[0]], Format(a[1..] + b, n));
      FormatBraceFreePrefix(a[1..], b, n);
      if Format(b, n).Success? {
        var v := Format(b, n).value;
        assert [a[0]] + (a[1..] + v) == a + v;
      }
    }
  }

  lemma FormatField(b: string, n: int)
    ensures Format("{start_number}" + b, n) == Prepend(IntToString(n), Format(b, n))
  {
    var t := "{start_number}" + b;
    assert t[0] == '{' && t[1] == 's';
    assert t[13] == '}';
    assert forall i :: 1 <= i < 13 ==> t[i] != '}';
    assert Find(t, '}', 1) == Some(13);
    assert t[1..13] == "start_number";
    assert t[14..] == b;
  }

  predicate BraceFreeFilters(filters: seq<(string, Value)>)
    requires ScalarFilters(filters)
  {
    forall i :: 0 <= i < |filters| ==> BraceFree(filters[i].0) && BraceFree(Render(filters[i].1))
  }

  lemma {:induction false} SuffixBraceFree(filters: seq<(string, Value)>)
    requires ScalarFilters(filters) && BraceFreeFilters(filters)
    ensures BraceFree(Suffix(filters))
    decreases |filters|
  {
    if filters != [] {
      assert BraceFreeFilters(filters[1..]) by {
        forall i | 0 <= i < |filters| - 1 ensures BraceFree(filters[1..][i].0) && BraceFree(Render(filters[1..][i].1)) {
          assert filters[1..][i] == filters[i + 1];
        }
      }
      SuffixBraceFree(filters[1..]);
    }
  }

  lemma FormatBraceFree(a: string, n: int)
    requires BraceFree(a)
    ensures Format(a, n) == Success(a)
  {
    FormatBraceFreePrefix(a, [], n);
    assert a + [] == a;
  }

  lemma LiteralHeadBraceFree(path: string)
    requires BraceFree(path)
    ensures BraceFree(path + "?limit=10&start_number=")
  {
    var lit := "?limit=10&start_number=";
    assert BraceFree(lit);
    var h := path + lit;
    forall i | 0 <= i < |h| ensures h[i] != '{' && h[i] != '}' {
      if i < |path| { assert h[i] == path[i]; } else { assert h[i] == lit[i - |path|]; }
    }
  }

  lemma FormatLinkText(path: string, sfx: string, n: int)
    requires BraceFree(path) && BraceFree(sfx)
    ensures Format(path + "?limit=10&start_number=" + ("{start_number}" + sfx), n)
         == Success(path + "?limit=10&start_number=" + IntToString(n) + sfx)
  {
    var head := path + "?limit=10&start_number=";
    var d := IntToString(n);
    LiteralHeadBraceFree(path);
    FormatBraceFreePrefix(head, "{start_number}" + sfx, n);
    FormatField(sfx, n);
    FormatBraceFree(sfx, n);
    assert Format("{start_number}" + sfx, n) == Success(d + sfx);
    assert Format(head + ("{start_number}" + sfx), n) == Success(head + (d + sfx));
    assert head + (d + sfx) == head + d + sfx;
  }

  lemma TemplateSplit()
    ensures QueryTemplate == "?limit=10&start_number=" + "{start_number}"
  {
  }

  lemma RegroupTemplate(path: string, sfx: string)
    ensures path + (("?limit=10&start_number=" + "{start_number}") + sfx)
         == path + "?limit=10&start_number=" + ("{start_number}" + sfx)
  {
  }

  lemma PageTemplateShape(link: Link)
    requires ScalarFilters(link.filters)
    ensures PageTemplate(link) == link.path + "?limit=10&start_number=" + ("{start_number}" + Suffix(link.filters))
  {
    QueryLinkShape(link.filters);
    assert PageTemplate(link) == link.path + (QueryTemplate + Suffix(link.filters));
    TemplateSplit();
    RegroupTemplate(link.path, Suffix(link.filters));
  }

  /**
   * When neither the path nor any rendered filter holds a brace, formatting
   * the link yields the path, `?limit=10&start_number=`, the digits of the
   * start number, and the filter terms.
   */
  lemma FormatLink(link: Link, n: int)
    requires ScalarFilters(link.filters) && BraceFree(link.path) && BraceFreeFilters(link.filters)
    ensures Format(PageTemplate(link), n)
         == Success(link.path + "?limit=10&start_number=" + IntToString(n) + Suffix(link.filters))
  {
    var sfx := Suffix(link.filters);
    PageTemplateShape(link);
    SuffixBraceFree(link.filters);
    FormatLinkText(link.path, sfx, n);
  }

  /**
   * A link whose filter text ends in an unpaired `}` (a name such as
   * `web}`) makes the format step raise instead of producing a URL.
   */
  lemma FormatLinkTextRaises(path: string, body: string, n: int)
    requires BraceFree(path) && BraceFree(body)
    ensures Format(path + "?limit=10&start_number=" + ("{start_number}" + (body + "}")), n).Failure?
  {
    var head := path + "?limit=10&start_number=";
    LiteralHeadBraceFree(path);
    FormatBraceFreePrefix(head, "{start_number}" + (body + "}"), n);
    FormatField(body + "}", n);
    FormatBraceFreePrefix(body, "}", n);
    assert Format("}", n).Failure?;
  }

  /** The page link handed to `format`: the path followed by the query template. */
  function PageTemplate(link: Link): string
    requires ScalarFilters(link.filters)
  {
    link.path + BuildQueryLink(link.filters)
  }
}
