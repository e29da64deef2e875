/**
 The query-string parser of server/plat/gdial.cpp (parse_query): the whole string
 is percent-decoded once (section 2.1 of RFC 3986), or left alone when it cannot be,
 and then cut at "&" and each field at its first "=".
 */
module Query {
  import opened Common

  type Parsed = map<string, string>

  // ---------- percent-decoding: g_uri_unescape_string ----------

  function HexValue(c: char): Option<nat> {
    if '0' <= c <= '9' then Some((c - '0') as nat)
    else if 'a' <= c <= 'f' then Some(10 + (c - 'a') as nat)
    else if 'A' <= c <= 'F' then Some(10 + (c - 'A') as nat)
    else None
  }

  /** The byte two hex digits stand for; NUL is refused. */
  function HexByte(h: char, l: char): Option<char> {
    match (HexValue(h), HexValue(l))
    case (Some(x), Some(y)) => if 16 * x + y == 0 then None else Some(ByteChar(16 * x + y))
    case _ => None
  }

  function ByteChar(n: nat): char {
    if n < 256 then n as char else '?'
  }

  function Prepend(c: char, r: Option<string>): Option<string> {
    match r
    case None => None
    case Some(x) => Some([c] + x)
  }

  /** None when some "%" is not followed by two hex digits, or stands for NUL. */
  function Unescape(s: string): Option<string>
    decreases |s|
  {
    if s == "" then Some("")
    else if s[0] != '%' then Prepend(s[0], Unescape(s[1..]))
    else if |s| < 3 || HexByte(s[1], s[2]) == None then None
    else Prepend(HexByte(s[1], s[2]).value, Unescape(s[3..]))
  }

  /** The string that is parsed: decoded if it can be, raw otherwise. */
  function Decoded(s: string): string {
    match Unescape(s)
    case Some(r) => r
    case None => s
  }

  // ---------- the parser as a reference definition ----------

  /** The fields between the "&" signs, from position i on. */
  function FieldsFrom(s: string, i: nat): seq<string>
    requires i <= |s|
    decreases |s| - i
  {
    var n := Find(s, '&', i);
    if n == |s| then [s[i..n]] else [s[i..n]] + FieldsFrom(s, n + 1)
  }

  function Fields(s: string): seq<string> {
    FieldsFrom(s, 0)
  }

  /** One field: kept when it has an "=" that is not its first character. */
  function Store(t: Parsed, field: string): Parsed {
    var n := Find(field, '=', 0);
    if 0 < n < |field| then t[field[..n] := field[n + 1..]] else t
  }

  function StoreAll(t: Parsed, fields: seq<string>): Parsed
    decreases |fields|
  {
    if fields == [] then t else StoreAll(Store(t, fields[0]), fields[1..])
  }

  /** The meaning of an already decoded query. */
  function ParseText(s: string): Parsed {
    StoreAll(map[], Fields(s))
  }

  function ParseQuery(query: Option<string>): Parsed {
    match query
    case None => map[]
    case Some(q) => ParseText(Decoded(q))
  }

  /** Store what is left of s from position i on. */
  function StoreRest(t: Parsed, s: string, i: nat): Parsed {
    if i <= |s| then StoreAll(t, FieldsFrom(s, i)) else t
  }

  /** parse_query: the index loop computes exactly the reference definition. */
  method Parse(queryString: Option<string>) returns (ret: Parsed)
    ensures ret == ParseQuery(queryString)
  {
    if queryString == None {
      return map[];
    }
    ret := ParseLoop(Decoded(queryString.value));
  }

  method ParseLoop(query: string) returns (ret: Parsed)
    ensures ret == ParseText(query)
  {
    ret := map[];
    ghost var meaning := ParseText(query);
    var begin := 0;
    while begin < |query|
      invariant StoreRest(ret, query, begin) == meaning
      decreases |query| - begin
    {
      var end := Find(query, '&', begin);
      var next := query[begin..end];
      StoreFirstField(ret, query, begin);
      var split := Find(next, '=', 0);
      if split > 0 && split != |next| {
        ret := ret[next[..split] := next[split + 1..]];
      }
      begin := end + 1;
    }
    if begin == |query| {
      StoreFirstField(ret, query, begin);
    }
  }

  /** One turn of the loop stores the first remaining field. */
  lemma StoreFirstField(t: Parsed, s: string, begin: nat)
    requires begin <= |s|
    ensures var end := Find(s, '&', begin);
            StoreRest(t, s, begin) == StoreRest(Store(t, s[begin..end]), s, end + 1)
  {
    var fields := FieldsFrom(s, begin);
    var end := Find(s, '&', begin);
    assert fields[0] == s[begin..end];
    if end < |s| {
      assert fields[1..] == FieldsFrom(s, end + 1);
    } else {
      var t' := Store(t, s[begin..end]);
      assert fields[1..] == [] && StoreAll(t', []) == t';
    }
  }

  // ---------- what the result means ----------

  predicate Binds(field: string, k: string, v: string) {
    k != "" && '=' !in k && field == k + "=" + v
  }

  lemma BindsIff(field: string, k: string, v: string)
    ensures Binds(field, k, v) <==>
            var n := Find(field, '=', 0); 0 < n < |field| && field[..n] == k && field[n + 1..] == v
  {
    if Binds(field, k, v) {
      BindsSplits(field, k, v);
    }
    var n := Find(field, '=', 0);
    if 0 < n < |field| {
      assert field == field[..n] + "=" + field[n + 1..];
      assert '=' !in field[..n];
    }
  }

  lemma BindsSplits(field: string, k: string, v: string)
    requires Binds(field, k, v)
    ensures Find(field, '=', 0) == |k| < |field| && field[..|k|] == k && field[|k| + 1..] == v
  {
    assert field[|k|] == '=';
    forall j | 0 <= j < |k| ensures field[j] != '=' {
      assert field[j] == k[j];
    }
    FindUnique(field, '=', 0, |k|);
  }

  ghost predicate LastBinding(fields: seq<string>, i: nat, k: string, v: string) {
    i < |fields| && Binds(fields[i], k, v)
    && forall j, w | i < j < |fields| :: !Binds(fields[j], k, w)
  }

  /** Last one wins: k has the value v exactly when some field "k=v" binds it and
      no later field binds k; empty keys and fields without "=" never count. */
  lemma {:induction false} LastBindingWins(fields: seq<string>, t: Parsed, k: string, v: string)
    ensures (k in StoreAll(t, fields) && StoreAll(t, fields)[k] == v)
            <==> (exists i: nat :: LastBinding(fields, i, k, v))
                 || (k in t && t[k] == v && forall j, w | 0 <= j < |fields| :: !Binds(fields[j], k, w))
    decreases |fields|
  {
    if fields != [] {
      var last := |fields| - 1;
      var front := fields[..last];
      LastBindingWins(front, t, k, v);
      StoreAllConcat(t, front, [fields[last]]);
      assert front + [fields[last]] == fields;
      var t' := StoreAll(t, front);
      assert StoreAll(t', [fields[last]]) == StoreAll(Store(t', fields[last]), []);
      BindsAt(fields[last], k, t');
      if w :| Binds(fields[last], k, w) {
        assert LastBinding(fields, last, k, w);
        forall i: nat | LastBinding(fields, i, k, v) ensures i == last {}
      } else {
        forall i: nat ensures LastBinding(fields, i, k, v) <==> LastBinding(front, i, k, v) {
          LastBindingSnoc(front, fields[last], i, k, v);
        }
      }
    }
  }

  lemma LastBindingSnoc(front: seq<string>, last: string, i: nat, k: string, v: string)
    requires forall w :: !Binds(last, k, w)
    ensures LastBinding(front + [last], i, k, v) <==> LastBinding(front, i, k, v)
  {
    var fields := front + [last];
    assert forall j | 0 <= j < |front| :: front[j] == fields[j];
    if LastBinding(front, i, k, v) {
      forall j, w | i < j < |fields| ensures !Binds(fields[j], k, w) {
        if j < |front| {
          assert !Binds(front[j], k, w);
        }
      }
    }
  }

  lemma BindsAt(field: string, k: string, t: Parsed)
    ensures forall v :: Binds(field, k, v) ==> k in Store(t, field) && Store(t, field)[k] == v
    ensures (forall v :: !Binds(field, k, v)) ==>
              (k in Store(t, field) <==> k in t) && (k in t ==> Store(t, field)[k] == t[k])
    ensures forall v, w :: Binds(field, k, v) && Binds(field, k, w) ==> v == w
  {
    forall v ensures Binds(field, k, v) <==>
                     var n := Find(field, '=', 0); 0 < n < |field| && field[..n] == k && field[n + 1..] == v {
      BindsIff(field, k, v);
    }
    var n := Find(field, '=', 0);
    if 0 < n < |field| && field[..n] == k {
      assert Binds(field, k, field[n + 1..]);
    }
  }

  function JoinFields(fields: seq<string>): string
    requires fields != []
    decreases |fields|
  {
    if |fields| == 1 then fields[0] else fields[0] + "&" + JoinFields(fields[1..])
  }

  lemma {:induction false} FieldsHoldNoAnd(s: string, i: nat)
    requires i <= |s|
    ensures forall f | f in FieldsFrom(s, i) :: '&' !in f
    decreases |s| - i
  {
    var n := Find(s, '&', i);
    assert '&' !in s[i..n];
    if n < |s| {
      FieldsHoldNoAnd(s, n + 1);
    }
  }

  /** The fields are exactly the pieces between the "&" signs: none contains one, and
      joined by "&" they give the text back. */
  lemma {:induction false} FieldsExact(s: string, i: nat)
    requires i <= |s|
    ensures FieldsFrom(s, i) != [] && JoinFields(FieldsFrom(s, i)) == s[i..]
    ensures forall f | f in FieldsFrom(s, i) :: '&' !in f
    decreases |s| - i
  {
    FieldsHoldNoAnd(s, i);
    var n := Find(s, '&', i);
    if n < |s| {
      var rest := FieldsFrom(s, n + 1);
      FieldsExact(s, n + 1);
      assert FieldsFrom(s, i)[1..] == rest;
      assert s[i..] == s[i..n] + "&" + s[n + 1..];
    }
  }

  /** What a decoded query means, without the loop: k has the value v exactly when
      the last field that binds k is "k=v". */
  lemma QueryMeaning(s: string, k: string, v: string)
    ensures (k in ParseText(s) && ParseText(s)[k] == v) <==> exists i: nat :: LastBinding(Fields(s), i, k, v)
  {
    LastBindingWins(Fields(s), map[], k, v);
  }

  // ---------- the laws ----------

  /** a overridden by b. */
  function Override(a: Parsed, b: Parsed): Parsed {
    a + b
  }

  lemma FindShift(s: string, q: string, k: nat, i: nat)
    requires i <= |q| && |s| == k + |q| && s[k..] == q
    ensures Find(s, '&', k + i) == k + Find(q, '&', i)
  {
    var n := Find(q, '&', i);
    forall j | k + i <= j < k + n ensures s[j] != '&' {
      assert s[j] == q[j - k];
    }
    FindUnique(s, '&', k + i, k + n);
  }

  lemma SliceShift(s: string, q: string, k: nat, i: nat, n: nat)
    requires i <= n <= |q| && |s| == k + |q| && s[k..] == q
    ensures s[k + i..k + n] == q[i..n]
  {
    assert forall j | 0 <= j < |q| :: s[k + j] == q[j];
  }

  lemma {:induction false} FieldsShift(s: string, q: string, k: nat, i: nat)
    requires i <= |q| && |s| == k + |q| && s[k..] == q
    ensures FieldsFrom(s, k + i) == FieldsFrom(q, i)
    decreases |q| - i
  {
    var n := Find(q, '&', i);
    FindShift(s, q, k, i);
    SliceShift(s, q, k, i, n);
    if n < |q| {
      FieldsShift(s, q, k, n + 1);
    }
  }

  lemma {:induction false} FieldsSplit(s: string, p: string, i: nat)
    requires i <= |p| < |s| && s[|p|] == '&' && forall j | 0 <= j < |p| :: s[j] == p[j]
    ensures FieldsFrom(s, i) == FieldsFrom(p, i) + FieldsFrom(s, |p| + 1)
    decreases |p| - i
  {
    var n := Find(p, '&', i);
    FindUnique(s, '&', i, n);
    assert s[i..n] == p[i..n];
    if n < |p| {
      FieldsSplit(s, p, n + 1);
    }
  }

  lemma FieldsJoin(a: string, b: string)
    ensures Fields(a + "&" + b) == Fields(a) + Fields(b)
  {
    var s := a + "&" + b;
    assert s[|a|] == '&';
    FieldsSplit(s, a, 0);
    assert s[|a| + 1..] == b;
    FieldsShift(s, b, |a| + 1, 0);
  }

  lemma {:induction false} StoreAllConcat(t: Parsed, x: seq<string>, y: seq<string>)
    ensures StoreAll(t, x + y) == StoreAll(StoreAll(t, x), y)
    decreases |x|
  {
    if x == [] {
      assert x + y == y;
    } else {
      assert (x + y)[0] == x[0] && (x + y)[1..] == x[1..] + y;
      StoreAllConcat(Store(t, x[0]), x[1..], y);
    }
  }

  lemma {:induction false} StoreAllOverride(t: Parsed, u: Parsed, x: seq<string>)
    ensures StoreAll(Override(t, u), x) == Override(t, StoreAll(u, x))
    decreases |x|
  {
    if x != [] {
      assert Store(Override(t, u), x[0]) == Override(t, Store(u, x[0]));
      StoreAllOverride(t, Store(u, x[0]), x[1..]);
    }
  }

  /** Joining two decoded queries with "&" parses to the first overridden by the
      second, for every pair of strings. */
  lemma ParseTextJoin(a: string, b: string)
    ensures ParseText(a + "&" + b) == Override(ParseText(a), ParseText(b))
  {
    FieldsJoin(a, b);
    StoreAllConcat(map[], Fields(a), Fields(b));
    assert Override(ParseText(a), map[]) == ParseText(a);
    StoreAllOverride(ParseText(a), map[], Fields(b));
  }

  /** Decode both and put "&" between; None unless both can be decoded. */
  function Joined(a: Option<string>, b: Option<string>): Option<string> {
    if a.Some? && b.Some? then Some(a.value + "&" + b.value) else None
  }

  lemma PrependJoined(c: char, a: Option<string>, b: Option<string>)
    ensures Joined(Prepend(c, a), b) == Prepend(c, Joined(a, b))
  {
    if a.Some? && b.Some? {
      assert [c] + a.value + "&" + b.value == [c] + (a.value + "&" + b.value);
    }
  }

  lemma {:induction false} UnescapeJoin(a: string, b: string)
    ensures Unescape(a + "&" + b) == Joined(Unescape(a), Unescape(b))
    decreases |a|
  {
    var s := a + "&" + b;
    if a == "" {
      assert s[0] == '&' && s[1..] == b;
      assert Unescape(s) == Prepend('&', Unescape(b));
      assert Unescape(a) == Some("");
      if Unescape(b).Some? {
        assert "" + "&" + Unescape(b).value == ['&'] + Unescape(b).value;
      }
    } else if a[0] != '%' {
      assert s[0] == a[0] && s[1..] == a[1..] + "&" + b;
      UnescapeJoin(a[1..], b);
      PrependJoined(a[0], Unescape(a[1..]), Unescape(b));
    } else if |a| < 3 {
      assert s[0] == '%' && s[|a|] == '&' && HexValue('&') == None;
    } else {
      assert s[0] == a[0] && s[1] == a[1] && s[2] == a[2];
      assert s[3..] == a[3..] + "&" + b;
      UnescapeJoin(a[3..], b);
      if HexByte(a[1], a[2]).Some? {
        PrependJoined(HexByte(a[1], a[2]).value, Unescape(a[3..]), Unescape(b));
      }
    }
  }

  /** The same law for raw query strings, in full: if both halves can be decoded
      each is decoded, and if either cannot, neither is. */
  lemma ParseQueryJoin(a: string, b: string)
    ensures ParseQuery(Some(a + "&" + b))
            == if Unescape(a).Some? && Unescape(b).Some?
               then Override(ParseQuery(Some(a)), ParseQuery(Some(b)))
               else Override(ParseText(a), ParseText(b))
  {
    UnescapeJoin(a, b);
    if Unescape(a).Some? && Unescape(b).Some? {
      ParseTextJoin(Unescape(a).value, Unescape(b).value);
    } else {
      ParseTextJoin(a, b);
    }
  }

  /** So a stray "%" in one half switches decoding off in the other. */
  lemma StrayPercentSpoilsTheOtherHalf()
    ensures ParseQuery(Some("%" + "&" + "k=%25")) != Override(ParseQuery(Some("%")), ParseQuery(Some("k=%25")))
  {
    assert Unescape("%") == None;
    DecodedPercent();
    ParseQueryJoin("%", "k=%25");
    assert "k" + "=" + "%25" == "k=%25" && "k" + "=" + "%" == "k=%";
    ParseSingle("k", "%25");
    ParseSingle("k", "%");
    assert Override(ParseText("%"), ParseText("k=%25"))["k"] == "%25";
    assert |"%25"| != |"%"|;
  }

  lemma DecodedPercent()
    ensures Unescape("k=%25") == Some("k=%")
  {
    assert Escape("k=%") == "k=%25" by {
      assert "k=%"[1..] == "=%" && "=%"[1..] == "%" && "%"[1..] == "";
      assert Escape("%") == "%25" && Escape("=%") == "=%25";
    }
    UnescapeEscape("k=%");
  }

  lemma ParseSingle(k: string, v: string)
    requires k != "" && '=' !in k && '&' !in k && '&' !in v
    ensures ParseText(k + "=" + v) == map[k := v]
  {
    var f := k + "=" + v;
    FindUnique(f, '&', 0, |f|);
    assert f[0..|f|] == f;
    BindsIff(f, k, v);
    assert Fields(f) == [f];
    assert StoreAll(map[], [f]) == StoreAll(Store(map[], f), []);
  }

  // ---------- rendering and reading back ----------

  /** What a client must do to a string it wants decoded to itself. */
  function Escape(s: string): string
    decreases |s|
  {
    if s == "" then "" else (if s[0] == '%' then "%25" else [s[0]]) + Escape(s[1..])
  }

  function Render(es: seq<Pair>): string
    decreases |es|
  {
    if es == [] then ""
    else if |es| == 1 then es[0].key + "=" + es[0].value
    else es[0].key + "=" + es[0].value + "&" + Render(es[1..])
  }

  ghost predicate Renderable(es: seq<Pair>) {
    forall i | 0 <= i < |es| ::
      es[i].key != "" && '=' !in es[i].key && '&' !in es[i].key && '&' !in es[i].value
  }

  lemma {:induction false} UnescapeEscape(s: string)
    ensures Unescape(Escape(s)) == Some(s)
    decreases |s|
  {
    if s != "" {
      UnescapeEscape(s[1..]);
      var r := Escape(s);
      if s[0] == '%' {
        assert r[0] == '%' && r[1] == '2' && r[2] == '5' && r[3..] == Escape(s[1..]);
        assert HexByte('2', '5') == Some('%');
      } else {
        assert r[0] == s[0] && r[1..] == Escape(s[1..]);
      }
      assert [s[0]] + s[1..] == s;
    }
  }

  const LOWER := "0123456789abcdef"
  const UPPER := "0123456789ABCDEF"

  lemma HexDigits(i: nat, c: char)
    requires i < 16
    ensures HexValue(LOWER[i]) == HexValue(UPPER[i]) == Some(i)
    ensures c !in LOWER && c !in UPPER ==> HexValue(c) == None
  {
    if c !in LOWER && c !in UPPER {
      assert c != LOWER[0] && c != LOWER[1] && c != LOWER[2] && c != LOWER[3] && c != LOWER[4];
      assert c != LOWER[5] && c != LOWER[6] && c != LOWER[7] && c != LOWER[8] && c != LOWER[9];
      assert c != LOWER[10] && c != LOWER[11] && c != LOWER[12] && c != LOWER[13] && c != LOWER[14] && c != LOWER[15];
      assert c != UPPER[10] && c != UPPER[11] && c != UPPER[12] && c != UPPER[13] && c != UPPER[14] && c != UPPER[15];
    }
  }

  /** Every byte in its percent form, in digits of either case. */
  function EscapeAll(s: string, digits: string): string
    requires |digits| == 16 && forall i | 0 <= i < |s| :: s[i] as nat < 256
    decreases |s|
  {
    if s == "" then ""
    else ['%', digits[s[0] as nat / 16], digits[s[0] as nat % 16]] + EscapeAll(s[1..], digits)
  }

  lemma UnescapeByte(n: nat, digits: string, rest: string)
    requires n < 256 && n > 0 && (digits == LOWER || digits == UPPER)
    ensures Unescape(['%', digits[n / 16], digits[n % 16]] + rest) == Prepend(n as char, Unescape(rest))
  {
    HexDigits(n / 16, ' ');
    HexDigits(n % 16, ' ');
    var r := ['%', digits[n / 16], digits[n % 16]] + rest;
    assert r[0] == '%' && r[3..] == rest;
    assert 16 * (n / 16) + n % 16 == n;
    assert HexByte(r[1], r[2]) == Some(n as char);
  }

  /** Percent-decoding undoes percent-encoding, for every byte but NUL, of the whole
      string and in either case; a "%" that no two digits follow cannot be decoded. */
  lemma {:induction false} UnescapeAll(s: string, digits: string)
    requires digits == LOWER || digits == UPPER
    requires forall i | 0 <= i < |s| :: 0 < s[i] as nat < 256
    ensures Unescape(EscapeAll(s, digits)) == Some(s)
    decreases |s|
  {
    if s != "" {
      UnescapeAll(s[1..], digits);
      UnescapeByte(s[0] as nat, digits, EscapeAll(s[1..], digits));
      assert [s[0]] + s[1..] == s;
    }
  }

  lemma BadEscape(h: char, l: char, rest: string)
    requires (h !in LOWER && h !in UPPER) || (l !in LOWER && l !in UPPER) || (h == '0' && l == '0')
    ensures Unescape(['%', h, l] + rest) == None && Unescape(['%', h]) == None && Unescape("%") == None
  {
    HexDigits(0, h);
    HexDigits(0, l);
  }

  lemma {:induction false} ParseRender(es: seq<Pair>)
    requires Renderable(es)
    ensures ParseText(Render(es)) == Table(es)
    decreases |es|
  {
    if es == [] {
      assert Fields("") == [""];
      assert StoreAll(map[], [""]) == StoreAll(map[], []);
    } else {
      ParseSingle(es[0].key, es[0].value);
      var one: Parsed := map[es[0].key := es[0].value];
      if |es| == 1 {
        assert es[1..] == [];
        assert Insert(map[], es) == Insert(one, es[1..]);
      } else {
        ParseRender(es[1..]);
        ParseTextJoin(es[0].key + "=" + es[0].value, Render(es[1..]));
        InsertOverride(one, map[], es[1..]);
        assert Override(one, map[]) == one;
      }
    }
  }

  lemma {:induction false} InsertOverride(t: Parsed, u: Parsed, es: seq<Pair>)
    ensures Insert(Override(t, u), es) == Override(t, Insert(u, es))
    decreases |es|
  {
    if es != [] {
      var e := es[0];
      assert Override(t, u)[e.key := e.value] == Override(t, u[e.key := e.value]);
      InsertOverride(t, u[e.key := e.value], es[1..]);
    }
  }

  /** Round trip: any list of pairs whose keys are non-empty and free of "=" and "&"
      and whose values are free of "&", rendered and escaped, parses back to its table. */
  lemma RenderRoundTrip(es: seq<Pair>)
    requires Renderable(es)
    ensures ParseQuery(Some(Escape(Render(es)))) == Table(es)
  {
    UnescapeEscape(Render(es));
    ParseRender(es);
  }
}
