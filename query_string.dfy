/** How the UI reads the query arguments of the page a redirect lands on: the part
    of the URL after the first '?', split on '&'; empty fields are skipped; each
    field splits at its first '=' (a field without one gets the value ""); when a
    name repeats, the last value wins. This is the channel between the callback
    server and the UI: the callback builds a URL by plain concatenation and the
    UI parses it back. Percent-decoding is not modelled, so the round trip is
    stated for Plain strings, which decoding leaves as they are. */
module QueryString {
  import opened Common

  /** A string carried through a URL unchanged: none of the characters that
      delimit or escape query fields or start a fragment. */
  predicate Plain(s: string)
  {
    '&' !in s && '=' !in s && '%' !in s && '+' !in s && '#' !in s
  }

  /** Lower-case letters and underscores only, as the field names are. */
  predicate Word(s: string)
  {
    forall i :: 0 <= i < |s| ==> 'a' <= s[i] <= 'z' || s[i] == '_'
  }

  /** A word needs no escaping. */
  lemma WordIsPlain(s: string)
    requires Word(s)
    ensures Plain(s)
  {
  }

  /** `s.split(sep)`: the fields between separators; never empty. */
  function Split(s: string, sep: char): (r: seq<string>)
    ensures |r| >= 1
    ensures forall f :: f in r ==> sep !in f
  {
    if |s| == 0 then [""]
    else
      var rest := Split(s[1..], sep);
      if s[0] == sep then [""] + rest else [[s[0]] + rest[0]] + rest[1..]
  }

  /** `field.split('=', 1)`, with "" as the value when there is no '='. */
  function NameValue(field: string): (r: (string, string))
    ensures forall c :: c in r.0 ==> c in field
    ensures forall c :: c in r.1 ==> c in field
  {
    if |field| == 0 then ("", "")
    else if field[0] == '=' then ("", field[1..])
    else
      var p := NameValue(field[1..]);
      ([field[0]] + p.0, p.1)
  }

  /** Adds the fields to `acc` from left to right, skipping empty ones. */
  function Collect(acc: Query, fields: seq<string>): (r: Query)
    ensures (forall k :: k in acc ==> '&' !in k && '&' !in acc[k]) && (forall f :: f in fields ==> '&' !in f) ==>
            forall k :: k in r ==> '&' !in k && '&' !in r[k]
    decreases |fields|
  {
    if |fields| == 0 then acc
    else if fields[0] == "" then Collect(acc, fields[1..])
    else
      var p := NameValue(fields[0]);
      Collect(acc[p.0 := p.1], fields[1..])
  }

  /** The query arguments of a query string. No name or value holds an '&',
      since the string is cut at every one. */
  function Parse(qs: string): (r: Query)
    ensures forall k :: k in r ==> '&' !in k && '&' !in r[k]
  {
    Collect(map[], Split(qs, '&'))
  }

  /** The query string of a URL: everything after its first '?', or "". */
  function QueryOf(url: string): (r: string)
    ensures '?' !in url ==> r == ""
  {
    if |url| == 0 then ""
    else if url[0] == '?' then url[1..]
    else QueryOf(url[1..])
  }

  /** The query arguments the UI's load handler sees once the browser has
      followed a redirect to `url`: none at all when the URL has no '?'. */
  function Arrive(url: string): (r: Query)
    ensures '?' !in url ==> r == map[]
  {
    Parse(QueryOf(url))
  }

  /** Writing name/value pairs as a query string, `n1=v1&n2=v2…`. */
  function Encode(pairs: seq<(string, string)>): string
  {
    if |pairs| == 0 then ""
    else if |pairs| == 1 then pairs[0].0 + "=" + pairs[0].1
    else pairs[0].0 + "=" + pairs[0].1 + "&" + Encode(pairs[1..])
  }

  /** The map the pairs denote when later ones overwrite earlier ones. */
  function Assign(acc: Query, pairs: seq<(string, string)>): Query
    decreases |pairs|
  {
    if |pairs| == 0 then acc
    else Assign(acc[pairs[0].0 := pairs[0].1], pairs[1..])
  }

  predicate AllPlain(pairs: seq<(string, string)>)
  {
    forall i :: 0 <= i < |pairs| ==> Plain(pairs[i].0) && Plain(pairs[i].1)
  }

  lemma {:induction false} SplitWithoutSeparator(a: string, sep: char)
    requires sep !in a
    ensures Split(a, sep) == [a]
  {
    if |a| > 0 {
      assert sep !in a[1..];
      SplitWithoutSeparator(a[1..], sep);
      assert [a[0]] + a[1..] == a;
    }
  }

  lemma {:induction false} SplitAtFirst(a: string, b: string, sep: char)
    requires sep !in a
    ensures Split(a + [sep] + b, sep) == [a] + Split(b, sep)
  {
    var s := a + [sep] + b;
    if |a| == 0 {
      assert s[1..] == b;
    } else {
      assert s[1..] == a[1..] + [sep] + b;
      assert sep !in a[1..];
      SplitAtFirst(a[1..], b, sep);
      assert [a[0]] + a[1..] == a;
    }
  }

  lemma {:induction false} NameValueOf(name: string, value: string)
    requires '=' !in name
    ensures NameValue(name + "=" + value) == (name, value)
  {
    var f := name + "=" + value;
    if |name| == 0 {
      assert f[1..] == value;
    } else {
      assert f[1..] == name[1..] + "=" + value;
      assert '=' !in name[1..];
      NameValueOf(name[1..], value);
      assert [name[0]] + name[1..] == name;
    }
  }

  /** A field `name=value` of Plain strings contains no '&'. */
  lemma FieldHasNoAmpersand(name: string, value: string)
    requires Plain(name) && Plain(value)
    ensures '&' !in name + "=" + value
  {
  }

  /** The round trip of the handoff: parsing an encoded query string gives back
      exactly the pairs written, later names overwriting earlier ones. */
  lemma {:induction false} CollectEncode(acc: Query, pairs: seq<(string, string)>)
    requires AllPlain(pairs)
    ensures Collect(acc, Split(Encode(pairs), '&')) == Assign(acc, pairs)
    decreases |pairs|
  {
    if |pairs| == 0 {
      assert Split("", '&') == [""];
      assert [""][1..] == [];
    } else {
      var field := pairs[0].0 + "=" + pairs[0].1;
      assert Plain(pairs[0].0) && Plain(pairs[0].1);
      FieldHasNoAmpersand(pairs[0].0, pairs[0].1);
      NameValueOf(pairs[0].0, pairs[0].1);
      assert field != "" by { assert |field| > |pairs[0].0|; }
      var acc' := acc[pairs[0].0 := pairs[0].1];
      if |pairs| == 1 {
        SplitWithoutSeparator(field, '&');
        assert [field][1..] == [];
      } else {
        SplitAtFirst(field, Encode(pairs[1..]), '&');
        assert Encode(pairs) == field + ['&'] + Encode(pairs[1..]);
        var fields := [field] + Split(Encode(pairs[1..]), '&');
        assert fields[1..] == Split(Encode(pairs[1..]), '&');
        assert AllPlain(pairs[1..]) by {
          forall i | 0 <= i < |pairs[1..]|
            ensures Plain(pairs[1..][i].0) && Plain(pairs[1..][i].1)
          {
            assert pairs[1..][i] == pairs[i + 1];
          }
        }
        CollectEncode(acc', pairs[1..]);
      }
    }
  }

  /** Parsing an encoded query string yields the map the pairs denote. */
  lemma ParseEncode(pairs: seq<(string, string)>)
    requires AllPlain(pairs)
    ensures Parse(Encode(pairs)) == Assign(map[], pairs)
  {
    CollectEncode(map[], pairs);
  }

  /** The query string of `prefix?rest` is `rest` when the prefix has no '?'. */
  lemma {:induction false} QueryAfterFirstMark(prefix: string, rest: string)
    requires '?' !in prefix
    ensures QueryOf(prefix + "?" + rest) == rest
  {
    var url := prefix + "?" + rest;
    if |prefix| == 0 {
      assert url[1..] == rest;
    } else {
      assert url[1..] == prefix[1..] + "?" + rest;
      assert '?' !in prefix[1..];
      QueryAfterFirstMark(prefix[1..], rest);
    }
  }

  /** Following a redirect to `prefix?n1=v1&…` shows the UI exactly those
      arguments. */
  lemma ArriveAt(prefix: string, pairs: seq<(string, string)>)
    requires '?' !in prefix
    requires AllPlain(pairs)
    ensures Arrive(prefix + "?" + Encode(pairs)) == Assign(map[], pairs)
  {
    QueryAfterFirstMark(prefix, Encode(pairs));
    ParseEncode(pairs);
  }

  /** Following a redirect to `prefix?n1=v1&n2=v2` shows those two arguments. */
  lemma ArriveTwo(prefix: string, n1: string, v1: string, n2: string, v2: string)
    requires '?' !in prefix
    requires Plain(n1) && Plain(v1) && Plain(n2) && Plain(v2)
    ensures Arrive(prefix + "?" + (n1 + "=" + v1 + "&" + (n2 + "=" + v2))) == map[n1 := v1][n2 := v2]
  {
    var pairs := [(n1, v1), (n2, v2)];
    assert pairs[1..] == [(n2, v2)] && pairs[1..][1..] == [];
    assert Encode(pairs) == n1 + "=" + v1 + "&" + (n2 + "=" + v2);
    assert AllPlain(pairs);
    ArriveAt(prefix, pairs);
    assert Assign(map[], pairs) == Assign(map[n1 := v1], pairs[1..]);
    assert Assign(map[n1 := v1], pairs[1..]) == Assign(map[n1 := v1][n2 := v2], []);
  }

  /** Following a redirect to `prefix?n1=v1&n2=v2&n3=v3` shows those three arguments. */
  lemma ArriveThree(prefix: string, n1: string, v1: string, n2: string, v2: string, n3: string, v3: string)
    requires '?' !in prefix
    requires Plain(n1) && Plain(v1) && Plain(n2) && Plain(v2) && Plain(n3) && Plain(v3)
    ensures Arrive(prefix + "?" + (n1 + "=" + v1 + "&" + (n2 + "=" + v2 + "&" + (n3 + "=" + v3))))
            == map[n1 := v1][n2 := v2][n3 := v3]
  {
    var pairs := [(n1, v1), (n2, v2), (n3, v3)];
    assert pairs[1..] == [(n2, v2), (n3, v3)];
    assert pairs[1..][1..] == [(n3, v3)] && pairs[1..][1..][1..] == [];
    assert Encode(pairs[1..]) == n2 + "=" + v2 + "&" + (n3 + "=" + v3);
    assert Encode(pairs) == n1 + "=" + v1 + "&" + (n2 + "=" + v2 + "&" + (n3 + "=" + v3));
    assert AllPlain(pairs);
    ArriveAt(prefix, pairs);
    var m1 := map[n1 := v1];
    var m2 := m1[n2 := v2];
    assert Assign(map[], pairs) == Assign(m1, pairs[1..]);
    assert Assign(m1, pairs[1..]) == Assign(m2, pairs[1..][1..]);
    assert Assign(m2, pairs[1..][1..]) == Assign(m2[n3 := v3], []);
  }

  /** A URL built as `u + lit + v`, where the literal `lit` holds the path `p`,
      the mark `m` and the field up to the value `v`, regrouped as the address,
      the mark and the field. */
  lemma RegroupMark(u: string, lit: string, p: string, m: string, f: string, v: string)
    requires lit == p + m + f
    ensures u + lit + v == (u + p) + m + (f + v)
  {
  }

  /** A URL built as `u + lit + v`, where the literal `lit` holds the path `p`,
      the mark `m` and the first field up to the value `v`, regrouped as the
      address, the mark and the fields. */
  lemma RegroupOne(u: string, lit: string, p: string, m: string, a: string, n: string, e: string, v: string)
    requires lit == p + m + (a + n + e)
    ensures u + lit + v == (u + p) + m + (a + (n + e + v))
  {
  }

  /** As RegroupOne, with a second literal `lit2 == b + t` and value `w` after `v`. */
  lemma RegroupTwo(u: string, lit: string, p: string, m: string, a: string, n: string, e: string, v: string,
                   lit2: string, b: string, t: string, w: string)
    requires lit == p + m + (a + n + e)
    requires lit2 == b + t
    ensures u + lit + v + lit2 + w == (u + p) + m + (a + (n + e + v + b + (t + w)))
  {
  }

  /** A URL built as `u + lit1 + x + lit2 + y + lit3 + z`, each literal holding a
      separator and the next field's name, regrouped as the address, the mark and
      the three fields. */
  lemma RegroupThree(u: string, lit1: string, p: string, m: string, a: string, x: string,
                     lit2: string, b: string, c: string, y: string, lit3: string, d: string, z: string)
    requires lit1 == p + m + a
    requires lit2 == b + c
    requires lit3 == b + d
    ensures u + lit1 + x + lit2 + y + lit3 + z == (u + p) + m + (a + x + b + (c + y + b + (d + z)))
  {
  }

  /** A field without '=' is a name with the value "". */
  lemma {:induction false} NameWithoutValue(field: string)
    requires '=' !in field
    ensures NameValue(field) == (field, "")
  {
    if |field| > 0 {
      assert '=' !in field[1..];
      NameWithoutValue(field[1..]);
      assert [field[0]] + field[1..] == field;
    }
  }

  /** A value holding an '&' does not survive the trip: following a redirect to
      `prefix?n=a&b` shows `n` with the value `a` only, and `b` as a name of its
      own with the value "", since the callbacks do not escape what they
      concatenate. */
  lemma ArriveCut(prefix: string, n: string, a: string, b: string)
    requires '?' !in prefix
    requires Plain(n) && Plain(a) && Plain(b) && b != ""
    ensures Arrive(prefix + "?" + (n + "=" + (a + "&" + b))) == map[n := a][b := ""]
  {
    var field := n + "=" + a;
    assert n + "=" + (a + "&" + b) == field + ['&'] + b;
    QueryAfterFirstMark(prefix, field + ['&'] + b);
    FieldHasNoAmpersand(n, a);
    SplitAtFirst(field, b, '&');
    SplitWithoutSeparator(b, '&');
    var fields := [field, b];
    assert Split(field + ['&'] + b, '&') == fields;
    NameValueOf(n, a);
    NameWithoutValue(b);
    assert |field| > 0;
    assert fields[1..] == [b] && fields[1..][1..] == [];
    assert Collect(map[], fields) == Collect(map[n := a], [b]);
  }


}
