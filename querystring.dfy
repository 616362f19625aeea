/**
 * Query strings as the relay builds them: an ordered list of named fields,
 * rendered the way Node's `querystring.stringify` renders a flat object
 * (`name=value` pairs joined by `&`, a null or undefined value rendered as the
 * empty string). The percent-escaping of names and values is a library routine
 * and is a parameter `esc` here; `Parse` is the inverse reading used to state
 * what a rendered query carries.
 */
module QueryString {
  import opened Wrappers
  import opened Text

  /** A field value: a JavaScript string, or null/undefined. */
  datatype Value = Str(text: string) | Null

  datatype Field = Field(name: string, value: Value)

  /** A URL as `base + "?" + query`, kept structured; `Href` renders it. */
  datatype Target = Target(base: string, query: seq<Field>)

  /** The text `querystring.stringify` writes for a value. */
  function ValueText(v: Value): (t: string)
    ensures v.Str? ==> t == v.text
    ensures v.Null? ==> t == ""
  {
    match v
    case Str(t) => t
    case Null => ""
  }

  /** The first field with the given name, if any: what a reader of the query sees under that name. */
  function Lookup(fields: seq<Field>, name: string): (r: Option<Value>)
    ensures r.Some? <==> exists i :: 0 <= i < |fields| && fields[i].name == name
    decreases |fields|
  {
    if |fields| == 0 then None
    else if fields[0].name == name then Some(fields[0].value)
    else
      var r := Lookup(fields[1..], name);
      assert forall i :: 1 <= i < |fields| ==> fields[i] == fields[1..][i - 1];
      r
  }

  /** A field whose name no earlier field has is what Lookup finds under that name. */
  lemma {:induction false} LookupAt(fields: seq<Field>, j: nat)
    requires j < |fields|
    requires forall i :: 0 <= i < j ==> fields[i].name != fields[j].name
    ensures Lookup(fields, fields[j].name) == Some(fields[j].value)
    decreases j
  {
    if j > 0 {
      assert fields[1..][j - 1] == fields[j];
      LookupAt(fields[1..], j - 1);
    }
  }

  function Names(fields: seq<Field>): (ns: seq<string>)
    ensures |ns| == |fields|
    ensures forall i :: 0 <= i < |fields| ==> ns[i] == fields[i].name
  {
    seq(|fields|, i requires 0 <= i < |fields| => fields[i].name)
  }

  function Pair(f: Field, esc: string -> string): string {
    esc(f.name) + "=" + esc(ValueText(f.value))
  }

  function Pairs(fields: seq<Field>, esc: string -> string): (ps: seq<string>)
    ensures |ps| == |fields|
    ensures forall i :: 0 <= i < |fields| ==> ps[i] == Pair(fields[i], esc)
  {
    seq(|fields|, i requires 0 <= i < |fields| => Pair(fields[i], esc))
  }

  /** `querystring.stringify(fields)` with `esc` for its escaping routine. */
  function Stringify(fields: seq<Field>, esc: string -> string): string {
    Join(Pairs(fields, esc), '&')
  }

  /** `${base}?${querystring.stringify(query)}`. */
  function Href(t: Target, esc: string -> string): (url: string)
    ensures |url| > |t.base| && url[..|t.base|] == t.base && url[|t.base|] == '?'
    ensures url[|t.base| + 1..] == Stringify(t.query, esc)
  {
    t.base + "?" + Stringify(t.query, esc)
  }

  /** An escaping routine never writes the two query delimiters (percent-encoding escapes both). */
  ghost predicate Escapes(esc: string -> string) {
    forall s :: '&' !in esc(s) && '=' !in esc(s)
  }

  ghost predicate Unescapes(unesc: string -> string, esc: string -> string) {
    forall s :: unesc(esc(s)) == s
  }

  /** Reads one `name=value` pair; a pair without `=` has the empty value. */
  function DecodePair(p: string, unesc: string -> string): (string, string) {
    var i := IndexOf(p, '=');
    if i < 0 then (unesc(p), "") else (unesc(p[..i]), unesc(p[i + 1..]))
  }

  /** Reads a query string back into its name/value pairs, in order. */
  function Parse(q: string, unesc: string -> string): seq<(string, string)> {
    if q == "" then []
    else
      var ps := Split(q, '&');
      seq(|ps|, i requires 0 <= i < |ps| => DecodePair(ps[i], unesc))
  }

  /** The pairs a reader recovers from the fields: each name with its rendered value. */
  function Decoded(fields: seq<Field>): (ds: seq<(string, string)>)
    ensures |ds| == |fields|
  {
    seq(|fields|, i requires 0 <= i < |fields| => (fields[i].name, ValueText(fields[i].value)))
  }

  lemma DecodePairOfPair(f: Field, esc: string -> string, unesc: string -> string)
    requires Escapes(esc) && Unescapes(unesc, esc)
    ensures DecodePair(Pair(f, esc), unesc) == (f.name, ValueText(f.value))
  {
    var n, v := esc(f.name), esc(ValueText(f.value));
    var p := Pair(f, esc);
    assert '=' !in n;
    assert p[|n|] == '=' && p[..|n|] == n && p[|n| + 1..] == v;
    IndexOfFirst(p, '=', |n|);
  }

  /** Whatever the fields, the rendered query reads back as exactly those
      names and values, in order. */
  lemma StringifyParse(fields: seq<Field>, esc: string -> string, unesc: string -> string)
    requires Escapes(esc) && Unescapes(unesc, esc)
    ensures Parse(Stringify(fields, esc), unesc) == Decoded(fields)
  {
    var ps := Pairs(fields, esc);
    if |fields| > 0 {
      forall i | 0 <= i < |ps| ensures '&' !in ps[i] {
        var n, v := esc(fields[i].name), esc(ValueText(fields[i].value));
        assert '&' !in n && '&' !in v;
        assert ps[i] == n + "=" + v;
      }
      SplitJoin(ps, '&');
      forall i | 0 <= i < |fields|
        ensures DecodePair(ps[i], unesc) == (fields[i].name, ValueText(fields[i].value))
      {
        DecodePairOfPair(fields[i], esc, unesc);
      }
    }
  }
}
